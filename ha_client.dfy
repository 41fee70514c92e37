/** The Home Assistant REST client: base-URL composition, the services map,
    service-call payloads and the routing of `execute`. HTTP is abstracted:
    a GET or POST is recorded on the client, and what the server answers is
    a parameter. */
module HaClient {
  import opened PyValues
  import opened Text

  // ----------------------------------------------------------------------
  // _build_ha_base_url
  // ----------------------------------------------------------------------

  /** An environment variable, or its default when unset. */
  function EnvOr(env: map<string, string>, name: string, default: string): string {
    if name in env then env[name] else default
  }

  /** `_build_ha_base_url`: a non-empty `HA_URL` wins, with its trailing
      slashes (and only those) dropped; otherwise `scheme://host:port` from
      the parts, each with its default. */
  function BaseUrl(env: map<string, string>): (b: string)
    ensures "HA_URL" in env && env["HA_URL"] != "" ==>
      && IsPrefix(b, env["HA_URL"])
      && (b == [] || b[|b| - 1] != '/')
      && forall i :: |b| <= i < |env["HA_URL"]| ==> env["HA_URL"][i] == '/'
    ensures "HA_URL" !in env && "HA_SCHEME" !in env && "HA_HOST" !in env && "HA_PORT" !in env ==>
      b == "http://localhost:8123"
  {
    if "HA_URL" in env && env["HA_URL"] != "" then RStripChar(env["HA_URL"], '/')
    else EnvOr(env, "HA_SCHEME", "http") + "://" + EnvOr(env, "HA_HOST", "localhost") + ":" + EnvOr(env, "HA_PORT", "8123")
  }

  // ----------------------------------------------------------------------
  // services_map
  // ----------------------------------------------------------------------

  /** One block of `/api/services`: it counts when it is a dict whose
      domain is a string and whose services (or `{}`) are a dict. */
  function Block(item: Json): (b: Option<(string, Json)>)
    ensures b.Some? ==> b.value.1.JDict?
  {
    if !item.JDict? then None
    else
      var dom := Get(item.entries, "domain", JNull);
      var svcs := Or(Get(item.entries, "services", JNull), JDict([]));
      if dom.JStr? && svcs.JDict? then Some((dom.s, svcs)) else None
  }

  predicate OffersDomain(item: Json, domain: string) {
    var b := Block(item);
    b.Some? && b.value.0 == domain
  }

  /** `services_map` over the blocks `items`, in order: `item.get` fails on
      a block that is not a dict. */
  function ServicesMapOf(items: seq<Json>): (r: Result<Dict>)
    ensures r.Ok? ==> DistinctKeys(r.value)
    decreases |items|
  {
    if items == [] then Ok([])
    else
      match ServicesMapOf(items[..|items| - 1])
      case Err(e) => Err(e)
      case Ok(m) =>
        var item := items[|items| - 1];
        if !item.JDict? then Err(AttributeError)
        else
          match Block(item)
          case None => Ok(m)
          case Some((dom, svcs)) =>
            SetKeepsDistinct(m, dom, svcs);
            Ok(Set(m, dom, svcs))
  }

  /** `services_map` over the `/api/services` answer. */
  function ServicesMapFrom(services: Json): Result<Dict> {
    match Iterate(services)
    case Err(e) => Err(e)
    case Ok(items) => ServicesMapOf(items)
  }

  /** A failure is always an AttributeError, and it survives more blocks. */
  lemma {:induction false} ServicesMapErr(items: seq<Json>, n: nat)
    requires n <= |items| && ServicesMapOf(items[..n]).Err?
    ensures ServicesMapOf(items) == Err(AttributeError)
    decreases |items|
  {
    if n < |items| {
      var init := items[..|items| - 1];
      assert init[..n] == items[..n];
      ServicesMapErr(init, n);
    } else {
      assert items[..n] == items;
      ServicesMapErrKind(items);
    }
  }

  lemma {:induction false} ServicesMapErrKind(items: seq<Json>)
    requires ServicesMapOf(items).Err?
    ensures ServicesMapOf(items) == Err(AttributeError)
    decreases |items|
  {
    if items != [] && ServicesMapOf(items[..|items| - 1]).Err? {
      ServicesMapErrKind(items[..|items| - 1]);
    }
  }

  /** One more block fails the map exactly when the map before it failed
      or the block is not a dict. */
  lemma ServicesMapErrStep(items: seq<Json>)
    requires items != []
    ensures ServicesMapOf(items).Err? <==> ServicesMapOf(items[..|items| - 1]).Err? || !items[|items| - 1].JDict?
  {
  }

  /** A failed map has a block that is not a dict. */
  lemma {:induction false} ServicesMapErrAt(items: seq<Json>) returns (i: nat)
    requires ServicesMapOf(items).Err?
    ensures i < |items| && !items[i].JDict?
    decreases |items|
  {
    var init := items[..|items| - 1];
    ServicesMapErrStep(items);
    if ServicesMapOf(init).Err? {
      i := ServicesMapErrAt(init);
      assert init[i] == items[i];
    } else {
      i := |items| - 1;
    }
  }

  /** A block that is not a dict fails the map. */
  lemma {:induction false} ServicesMapNonDict(items: seq<Json>, i: nat)
    requires i < |items| && !items[i].JDict?
    ensures ServicesMapOf(items).Err?
    decreases |items|
  {
    ServicesMapErrStep(items);
    if i < |items| - 1 {
      var init := items[..|items| - 1];
      assert init[i] == items[i];
      ServicesMapNonDict(init, i);
    }
  }

  /** The map fails exactly when some block is not a dict. */
  lemma ServicesMapFails(items: seq<Json>)
    ensures ServicesMapOf(items).Err? <==> exists i :: 0 <= i < |items| && !items[i].JDict?
  {
    if ServicesMapOf(items).Err? {
      var i := ServicesMapErrAt(items);
    }
    if exists i :: 0 <= i < |items| && !items[i].JDict? {
      var i :| 0 <= i < |items| && !items[i].JDict?;
      ServicesMapNonDict(items, i);
    }
  }

  /** One more block either sets its domain or leaves the map as it was. */
  lemma ServicesMapStep(items: seq<Json>, domain: string)
    requires items != [] && ServicesMapOf(items).Ok?
    ensures var init, last := items[..|items| - 1], items[|items| - 1];
      && ServicesMapOf(init).Ok?
      && Find(ServicesMapOf(items).value, domain) ==
           if OffersDomain(last, domain) then Some(Block(last).value.1) else Find(ServicesMapOf(init).value, domain)
  {
    var init, last := items[..|items| - 1], items[|items| - 1];
    match Block(last)
    case None =>
    case Some((dom, svcs)) =>
      FindSet(ServicesMapOf(init).value, dom, svcs, domain);
  }

  /** The blocks that count, one per item, in order. */
  function BlocksOf(items: seq<Json>): (bs: seq<Option<(string, Json)>>)
    ensures |bs| == |items|
    decreases |items|
  {
    if items == [] then [] else BlocksOf(items[..|items| - 1]) + [Block(items[|items| - 1])]
  }

  lemma {:induction false} BlocksOfIndex(items: seq<Json>, i: nat)
    requires i < |items|
    ensures BlocksOf(items)[i] == Block(items[i])
    decreases |items|
  {
    if i < |items| - 1 {
      BlocksOfIndex(items[..|items| - 1], i);
    }
  }

  /** The map built from the counted blocks alone. */
  function Collect(bs: seq<Option<(string, Json)>>): Dict
    decreases |bs|
  {
    if bs == [] then []
    else
      var m := Collect(bs[..|bs| - 1]);
      match bs[|bs| - 1]
      case None => m
      case Some((dom, svcs)) => Set(m, dom, svcs)
  }

  /** A successful map is the map of its counted blocks. */
  lemma {:induction false} ServicesMapIsCollect(items: seq<Json>)
    requires ServicesMapOf(items).Ok?
    ensures ServicesMapOf(items).value == Collect(BlocksOf(items))
    decreases |items|
  {
    if items != [] {
      var bs := BlocksOf(items);
      assert bs[..|bs| - 1] == BlocksOf(items[..|items| - 1]);
      ServicesMapIsCollect(items[..|items| - 1]);
    }
  }

  lemma CollectStep(bs: seq<Option<(string, Json)>>, domain: string)
    requires bs != []
    ensures var init, last := bs[..|bs| - 1], bs[|bs| - 1];
      Find(Collect(bs), domain) == if last.Some? && last.value.0 == domain then Some(last.value.1) else Find(Collect(init), domain)
  {
    var init, last := bs[..|bs| - 1], bs[|bs| - 1];
    match last
    case None =>
    case Some((dom, svcs)) =>
      FindSet(Collect(init), dom, svcs, domain);
  }

  /** A domain is in the collected map exactly when some block names it. */
  lemma {:induction false} CollectHas(bs: seq<Option<(string, Json)>>, domain: string)
    ensures HasKey(Collect(bs), domain) <==> exists i :: 0 <= i < |bs| && bs[i].Some? && bs[i].value.0 == domain
    decreases |bs|
  {
    if bs != [] {
      CollectHas(bs[..|bs| - 1], domain);
      CollectStep(bs, domain);
      NamedStep(bs, domain);
    }
  }

  /** Some block names `domain` exactly when the last one does or an
      earlier one does. */
  lemma NamedStep(bs: seq<Option<(string, Json)>>, domain: string)
    requires bs != []
    ensures var init, last := bs[..|bs| - 1], bs[|bs| - 1];
      (exists i :: 0 <= i < |bs| && bs[i].Some? && bs[i].value.0 == domain) <==>
      ((last.Some? && last.value.0 == domain) || exists i :: 0 <= i < |init| && init[i].Some? && init[i].value.0 == domain)
  {
    var init := bs[..|bs| - 1];
    if exists i :: 0 <= i < |bs| && bs[i].Some? && bs[i].value.0 == domain {
      var i :| 0 <= i < |bs| && bs[i].Some? && bs[i].value.0 == domain;
      if i < |init| {
        assert init[i] == bs[i];
      }
    }
    if exists i :: 0 <= i < |init| && init[i].Some? && init[i].value.0 == domain {
      var i :| 0 <= i < |init| && init[i].Some? && init[i].value.0 == domain;
      assert bs[i] == init[i];
    }
  }

  /** A domain is in the map exactly when some block offers it. */
  lemma ServicesMapHas(items: seq<Json>, domain: string)
    requires ServicesMapOf(items).Ok?
    ensures HasKey(ServicesMapOf(items).value, domain) <==> exists i :: 0 <= i < |items| && OffersDomain(items[i], domain)
  {
    ServicesMapIsCollect(items);
    var bs := BlocksOf(items);
    CollectHas(bs, domain);
    forall i | 0 <= i < |items|
      ensures OffersDomain(items[i], domain) <==> bs[i].Some? && bs[i].value.0 == domain
    {
      BlocksOfIndex(items, i);
    }
  }

  /** A domain's services come from the last block that offers it: a later
      duplicate overwrites an earlier one. */
  lemma {:induction false} ServicesMapLast(items: seq<Json>, domain: string, i: nat)
    requires ServicesMapOf(items).Ok?
    requires i < |items| && OffersDomain(items[i], domain)
    requires forall j :: i < j < |items| ==> !OffersDomain(items[j], domain)
    ensures Find(ServicesMapOf(items).value, domain) == Some(Block(items[i]).value.1)
    decreases |items|
  {
    ServicesMapStep(items, domain);
    if i < |items| - 1 {
      var init := items[..|items| - 1];
      assert init[i] == items[i];
      ServicesMapLast(init, domain, i);
    }
  }

  /** Every value of the map is a dict of services. */
  lemma {:induction false} ServicesMapValues(items: seq<Json>, domain: string)
    requires ServicesMapOf(items).Ok?
    ensures var f := Find(ServicesMapOf(items).value, domain); f.Some? ==> f.value.JDict?
    decreases |items|
  {
    if items != [] {
      ServicesMapStep(items, domain);
      ServicesMapValues(items[..|items| - 1], domain);
    }
  }

  /** The loop of `services_map`. */
  method ServicesMapLoop(items: seq<Json>) returns (r: Result<Dict>)
    ensures r == ServicesMapOf(items)
  {
    var out: Dict := [];
    for i := 0 to |items|
      invariant ServicesMapOf(items[..i]) == Ok(out)
    {
      var item := items[i];
      assert items[..i + 1][..i] == items[..i];
      if !item.JDict? {
        ServicesMapErr(items, i + 1);
        return Err(AttributeError);
      }
      var dom := Get(item.entries, "domain", JNull);
      var svcs := Or(Get(item.entries, "services", JNull), JDict([]));
      if dom.JStr? && svcs.JDict? {
        out := Set(out, dom.s, svcs);
      }
    }
    assert items[..|items|] == items;
    return Ok(out);
  }

  // ----------------------------------------------------------------------
  // call_service and execute
  // ----------------------------------------------------------------------

  /** A recorded POST: the path and the JSON body. */
  datatype Post = Post(path: string, payload: Dict)

  function ServicePath(domain: string, service: string): string {
    "/api/services/" + domain + "/" + service
  }

  /** `payload[k] = v` when `v` is truthy. */
  function SetIfTruthy(d: Dict, k: string, v: Json): Dict {
    if Truthy(v) then Set(d, k, v) else d
  }

  /** The body `call_service` posts: a copy of `service_data` (or `{}`) with
      each truthy target added. */
  function Payload(serviceData: Json, entityId: Json, areaId: Json, deviceId: Json): (r: Result<Dict>)
    ensures r.Err? <==> DictOf(Or(serviceData, JDict([]))).Err?
    ensures r.Ok? && Truthy(entityId) ==> Find(r.value, "entity_id") == Some(entityId)
    ensures r.Ok? && Truthy(areaId) ==> Find(r.value, "area_id") == Some(areaId)
    ensures r.Ok? && Truthy(deviceId) ==> Find(r.value, "device_id") == Some(deviceId)
  {
    match DictOf(Or(serviceData, JDict([])))
    case Err(e) => Err(e)
    case Ok(p) =>
      var p1 := SetIfTruthy(p, "entity_id", entityId);
      var p2 := SetIfTruthy(p1, "area_id", areaId);
      SetIfTruthyFind(p, "entity_id", entityId, "entity_id");
      SetIfTruthyFind(p1, "area_id", areaId, "entity_id");
      SetIfTruthyFind(p1, "area_id", areaId, "area_id");
      SetIfTruthyFind(p2, "device_id", deviceId, "entity_id");
      SetIfTruthyFind(p2, "device_id", deviceId, "area_id");
      SetIfTruthyFind(p2, "device_id", deviceId, "device_id");
      Ok(SetIfTruthy(p2, "device_id", deviceId))
  }

  /** A truthy target is sent, a falsy one leaves whatever `service_data`
      held; every other entry is copied. */
  lemma PayloadEntries(data: Dict, entityId: Json, areaId: Json, deviceId: Json, k: string)
    ensures var p := Payload(JDict(data), entityId, areaId, deviceId);
      && p.Ok?
      && Find(p.value, k) ==
           if k == "device_id" && Truthy(deviceId) then Some(deviceId)
           else if k == "area_id" && Truthy(areaId) then Some(areaId)
           else if k == "entity_id" && Truthy(entityId) then Some(entityId)
           else Find(data, k)
  {
    var p0 := data;
    var p1 := SetIfTruthy(p0, "entity_id", entityId);
    var p2 := SetIfTruthy(p1, "area_id", areaId);
    var p3 := SetIfTruthy(p2, "device_id", deviceId);
    PayloadOfDict(data, entityId, areaId, deviceId);
    SetIfTruthyFind(p0, "entity_id", entityId, k);
    SetIfTruthyFind(p1, "area_id", areaId, k);
    SetIfTruthyFind(p2, "device_id", deviceId, k);
  }

  /** A dict `service_data` is copied as it is. */
  lemma PayloadOfDict(data: Dict, entityId: Json, areaId: Json, deviceId: Json)
    ensures Payload(JDict(data), entityId, areaId, deviceId) ==
      Ok(SetIfTruthy(SetIfTruthy(SetIfTruthy(data, "entity_id", entityId), "area_id", areaId), "device_id", deviceId))
  {
    if data == [] {
      assert Or(JDict(data), JDict([])) == JDict([]);
    } else {
      assert Or(JDict(data), JDict([])) == JDict(data);
    }
  }

  lemma SetIfTruthyFind(d: Dict, k: string, v: Json, k': string)
    ensures Find(SetIfTruthy(d, k, v), k') == if Truthy(v) && k' == k then Some(v) else Find(d, k')
  {
    if Truthy(v) {
      FindSet(d, k, v, k');
    }
  }

  /** The (domain, service) `execute` calls: `action_id` split at its first
      `.`, or `light.turn_on` without one. `"." in action_id` is tried
      before `split`, so a list or dict holding `"."` has no `split`. */
  function Route(actionId: Json): (r: Result<(string, string)>)
    ensures actionId.JStr? ==> r.Ok?
    ensures actionId.JNull? || actionId.JBool? || actionId.JInt? ==> r == Err(TypeError)
  {
    match In(".", actionId)
    case Err(e) => Err(e)
    case Ok(false) => Ok(("light", "turn_on"))
    case Ok(true) =>
      if actionId.JStr? then
        assert '.' in actionId.s by { SubstringChar(".", actionId.s); }
        Ok(SplitFirst(actionId.s, '.').value)
      else Err(AttributeError)
  }

  /** A dotted action id is split at its first dot; any other string routes
      to `light.turn_on`. */
  lemma RouteOfString(a: string)
    ensures '.' in a ==>
      && Route(JStr(a)).Ok?
      && a == Route(JStr(a)).value.0 + "." + Route(JStr(a)).value.1
      && '.' !in Route(JStr(a)).value.0
    ensures '.' !in a ==> Route(JStr(a)) == Ok(("light", "turn_on"))
  {
    SubstringChar(".", a);
  }

  /** `x.pop(k, None)`: the popped value and what is left. A list's `pop`
      takes an index, so two arguments are a TypeError. */
  function Pop(x: Json, k: string): (r: Result<(Json, Json)>)
    ensures x.JDict? <==> r.Ok?
    ensures r.Ok? ==>
      && r.value.1.JDict? && !HasKey(r.value.1.entries, k)
      && (forall k' :: k' != k ==> Find(r.value.1.entries, k') == Find(x.entries, k'))
      && (HasKey(x.entries, k) ==> Find(x.entries, k) == Some(r.value.0))
      && (!HasKey(x.entries, k) ==> r.value.0 == JNull)
  {
    match x
    case JDict(e) => Ok((Get(e, k, JNull), JDict(Delete(e, k))))
    case JList(_) => Err(TypeError)
    case _ => Err(AttributeError)
  }

  /** What `execute` posts: the route, and the args without `entity_id` and
      `area_id`, which are sent as targets with the device. */
  function ExecuteRequest(deviceId: Json, actionId: Json, args: Json): Result<(string, string, Dict)> {
    match Route(actionId)
    case Err(e) => Err(e)
    case Ok((domain, service)) =>
      match Pop(args, "entity_id")
      case Err(e) => Err(e)
      case Ok((entityId, rest)) =>
        match Pop(rest, "area_id")
        case Err(e) => Err(e)
        case Ok((areaId, rest')) =>
          match Payload(rest', entityId, areaId, deviceId)
          case Err(e) => Err(e)
          case Ok(p) => Ok((domain, service, p))
  }

  /** Execution with dict args never fails after routing: each target
      popped from args is sent only when truthy, the device id likewise, and
      every other argument is passed on. */
  lemma ExecutePayload(deviceId: Json, actionId: Json, args: Dict, k: string)
    requires Route(actionId).Ok?
    ensures var r := ExecuteRequest(deviceId, actionId, JDict(args));
      && r.Ok?
      && (r.value.0, r.value.1) == Route(actionId).value
      && Find(r.value.2, k) ==
           if k == "device_id" && Truthy(deviceId) then Some(deviceId)
           else if k == "area_id" then (if Truthy(Get(args, "area_id", JNull)) then Some(Get(args, "area_id", JNull)) else None)
           else if k == "entity_id" then (if Truthy(Get(args, "entity_id", JNull)) then Some(Get(args, "entity_id", JNull)) else None)
           else Find(args, k)
  {
    var entityId := Get(args, "entity_id", JNull);
    var rest := Delete(args, "entity_id");
    var areaId := Get(rest, "area_id", JNull);
    var rest' := Delete(rest, "area_id");
    assert areaId == Get(args, "area_id", JNull);
    assert Pop(JDict(args), "entity_id") == Ok((entityId, JDict(rest)));
    assert Pop(JDict(rest), "area_id") == Ok((areaId, JDict(rest')));
    PayloadEntries(rest', entityId, areaId, deviceId, k);
    var p := Payload(JDict(rest'), entityId, areaId, deviceId).value;
    assert ExecuteRequest(deviceId, actionId, JDict(args)) == Ok((Route(actionId).value.0, Route(actionId).value.1, p));
    if k != "entity_id" && k != "area_id" {
      assert Find(rest', k) == Find(args, k);
    } else {
      assert Find(rest', k) == None;
    }
  }

  // ----------------------------------------------------------------------
  // The client
  // ----------------------------------------------------------------------

  class Client {
    const base: string
    const token: string
    /** `_services_cache`; `None` is `JNull`. */
    var servicesCache: Json
    /** The GET paths requested so far. */
    var gets: seq<string>
    /** The POSTs sent so far. */
    var posts: seq<Post>

    /** `HAClient.__init__` once the token is known to be set. */
    constructor(base: string, token: string)
      requires token != ""
      ensures this.base == base && this.token == token
      ensures servicesCache == JNull && gets == [] && posts == []
    {
      this.base := base;
      this.token := token;
      servicesCache := JNull;
      gets := [];
      posts := [];
    }

    /** `services()`: `/api/services` is fetched while the cache holds
        `None`; `answer` is what `_get` gives: the decoded reply, or the
        error `raise_for_status` raises, which leaves the cache as it was.
        A `null` answer leaves the cache empty, so the next call fetches
        again. */
    method Services(answer: Result<Json>) returns (s: Result<Json>)
      modifies this`servicesCache, this`gets
      ensures old(servicesCache) != JNull ==> s == Ok(old(servicesCache)) && servicesCache == old(servicesCache) && gets == old(gets)
      ensures old(servicesCache) == JNull ==> s == answer && gets == old(gets) + ["/api/services"]
      ensures old(servicesCache) == JNull ==> servicesCache == if answer.Ok? then answer.value else JNull
    {
      if servicesCache == JNull {
        gets := gets + ["/api/services"];
        if answer.Err? {
          return Err(answer.error);
        }
        servicesCache := answer.value;
      }
      s := Ok(servicesCache);
    }

    /** `services_map` over the (possibly cached) services. */
    method ServicesMap(answer: Result<Json>) returns (r: Result<Dict>)
      modifies this`servicesCache, this`gets
      ensures old(servicesCache) != JNull ==> r == ServicesMapFrom(old(servicesCache)) && gets == old(gets)
      ensures old(servicesCache) == JNull ==> gets == old(gets) + ["/api/services"]
      ensures old(servicesCache) == JNull && answer.Err? ==> r == Err(answer.error)
      ensures old(servicesCache) == JNull && answer.Ok? ==> r == ServicesMapFrom(answer.value)
      ensures servicesCache == if old(servicesCache) != JNull then old(servicesCache) else if answer.Ok? then answer.value else JNull
    {
      var s := Services(answer);
      if s.Err? {
        return Err(s.error);
      }
      var items := Iterate(s.value);
      if items.Err? {
        return Err(items.error);
      }
      r := ServicesMapLoop(items.value);
    }

    /** `domain_services`: the services of one domain, or `{}`. */
    method DomainServices(domain: string, answer: Result<Json>) returns (r: Result<Json>)
      modifies this`servicesCache, this`gets
      ensures var m := if old(servicesCache) != JNull then ServicesMapFrom(old(servicesCache))
                       else if answer.Err? then Err(answer.error) else ServicesMapFrom(answer.value);
        r == if m.Err? then Err(m.error) else Ok(Get(m.value, domain, JDict([])))
      ensures servicesCache == if old(servicesCache) != JNull then old(servicesCache) else if answer.Ok? then answer.value else JNull
    {
      var m := ServicesMap(answer);
      if m.Err? {
        return Err(m.error);
      }
      return Ok(Get(m.value, domain, JDict([])));
    }

    /** `call_service`: one POST of the payload. `answer` is what `_post`
        gives: the decoded reply, or the error `raise_for_status` raises;
        the request is sent either way. */
    method CallService(domain: string, service: string, serviceData: Json, entityId: Json, areaId: Json,
                       deviceId: Json, answer: Result<Json>) returns (r: Result<Json>)
      modifies this`posts
      ensures var p := Payload(serviceData, entityId, areaId, deviceId);
        && (p.Err? ==> r == Err(p.error) && posts == old(posts))
        && (p.Ok? ==> r == answer && posts == old(posts) + [Post(ServicePath(domain, service), p.value)])
    {
      var payload := DictOf(Or(serviceData, JDict([])));
      if payload.Err? {
        return Err(payload.error);
      }
      var body := payload.value;
      if Truthy(entityId) {
        body := Set(body, "entity_id", entityId);
      }
      assert body == SetIfTruthy(payload.value, "entity_id", entityId);
      ghost var b1 := body;
      if Truthy(areaId) {
        body := Set(body, "area_id", areaId);
      }
      assert body == SetIfTruthy(b1, "area_id", areaId);
      ghost var b2 := body;
      if Truthy(deviceId) {
        body := Set(body, "device_id", deviceId);
      }
      assert body == SetIfTruthy(b2, "device_id", deviceId);
      posts := posts + [Post(ServicePath(domain, service), body)];
      return answer;
    }

    /** `execute`: route the action, take the targets out of `args` and call
        the service once; a failed POST raises out of `execute`. */
    method Execute(deviceId: Json, actionId: Json, args: Json, answer: Result<Json>) returns (r: Result<Json>)
      modifies this`posts
      ensures var q := ExecuteRequest(deviceId, actionId, args);
        && (q.Err? ==> r == Err(q.error) && posts == old(posts))
        && (q.Ok? ==>
              && posts == old(posts) + [Post(ServicePath(q.value.0, q.value.1), q.value.2)]
              && (answer.Err? ==> r == Err(answer.error))
              && (answer.Ok? ==>
                    r == Ok(JDict([("status", JStr("ok")), ("service", JStr(q.value.0 + "." + q.value.1)), ("result", answer.value)]))))
    {
      var route := Route(actionId);
      if route.Err? {
        return Err(route.error);
      }
      var (domain, service) := route.value;
      var e := Pop(args, "entity_id");
      if e.Err? {
        return Err(e.error);
      }
      var a := Pop(e.value.1, "area_id");
      var result := CallService(domain, service, a.value.1, e.value.0, a.value.0, deviceId, answer);
      if result.Err? {
        return Err(result.error);
      }
      return Ok(JDict([("status", JStr("ok")), ("service", JStr(domain + "." + service)), ("result", result.value)]));
    }
  }

  /** `HAClient()` finds a token: `HA_TOKEN` is set and non-empty. */
  predicate HasToken(env: map<string, string>) {
    "HA_TOKEN" in env && env["HA_TOKEN"] != ""
  }

  /** `HAClient()`: fails when `HA_TOKEN` is unset or empty. */
  method Connect(env: map<string, string>) returns (r: Result<Client>)
    ensures r.Err? <==> "HA_TOKEN" !in env || env["HA_TOKEN"] == ""
    ensures r.Err? ==> r.error == RuntimeError
    ensures r.Ok? ==>
      && fresh(r.value) && r.value.base == BaseUrl(env) && r.value.token == env["HA_TOKEN"]
      && r.value.servicesCache == JNull && r.value.gets == [] && r.value.posts == []
  {
    var base := BaseUrl(env);
    if "HA_TOKEN" !in env || env["HA_TOKEN"] == "" {
      return Err(RuntimeError);
    }
    var c := new Client(base, env["HA_TOKEN"]);
    return Ok(c);
  }
}
