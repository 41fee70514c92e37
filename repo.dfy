/** The in-memory catalog and session store: chat sessions and their
    messages, the seeded demo devices, actions and schemas, and the two
    static-snapshot indexes (entity id to row, domain to row) with their
    embedding bookkeeping. */
module Repository {
  import opened PyValues
  import opened Text
  import Summarizer

  // ----------------------------------------------------------------------
  // Records
  // ----------------------------------------------------------------------

  datatype Session = Session(chatId: string, tenantId: Option<string>, summaryText: string, updatedAt: int)

  /** The content of an assistant message is whatever the model produced. */
  datatype Message = Message(chatId: string, role: string, content: Json, createdAt: int)

  datatype Device = Device(id: string, tenantId: string, name: string, area: string, domain: string,
                           kind: string, aliases: seq<string>, capabilities: seq<string>, hash: string)

  datatype Action = Action(id: string, deviceId: string, name: string, schemaHash: string)

  /** A stored schema: its JSON schema and its hint map. */
  datatype Schema = Schema(schemaJson: Dict, hintJson: Dict)

  // ----------------------------------------------------------------------
  // Demo seed
  // ----------------------------------------------------------------------

  const SeedDevices: seq<Device> := [
    Device("dev_42", "t_demo", "Living Room Lamp", "living_room", "light", "light", ["lamp"], ["brightness"], "h1"),
    Device("dev_77", "t_demo", "Ceiling Light", "living_room", "light", "light", ["ceiling"], ["on_off"], "h2")
  ]

  const SeedActions: seq<Action> := [
    Action("act_brightness", "dev_42", "set_brightness", "sch_bright"),
    Action("act_on", "dev_77", "turn_on", "sch_on")
  ]

  const SeedSchemas: map<string, Schema> := map[
    "sch_bright" := Schema([("properties", JDict([("value", JDict([("range", JStr("0-100"))]))]))],
                           [("value_range", JStr("0-100"))]),
    "sch_on" := Schema([("properties", JDict([]))], [("toggle", JBool(true))])
  ]

  // ----------------------------------------------------------------------
  // Candidates
  // ----------------------------------------------------------------------

  /** A candidate of a decision bundle. */
  function CandidateJson(d: Device, actionId: string, actionName: string, hint: Dict, args: Json): Json {
    JDict([
      ("device", JDict([("id", JStr(d.id)), ("name", JStr(d.name)), ("type", JStr(d.kind))])),
      ("action", JDict([("id", JStr(actionId)), ("name", JStr(actionName))])),
      ("schema_hint", JDict(hint)),
      ("args_proposed", args)
    ])
  }

  // ----------------------------------------------------------------------
  // search_devices
  // ----------------------------------------------------------------------

  /** The context's room, lower-cased, `""` when absent; a room that is
      not a string has no `lower`. */
  function RoomOf(context: Dict): (r: Result<string>)
    ensures !HasKey(context, "room") ==> r == Ok("")
    ensures r.Err? <==> HasKey(context, "room") && !Find(context, "room").value.JStr?
  {
    match Get(context, "room", JStr(""))
    case JStr(s) => Ok(Lower(s))
    case _ => Err(AttributeError)
  }

  /** `t.lower() in name` for one item of the targets; only a string has
      `lower`. */
  predicate Hits(t: Json, name: string) {
    t.JStr? && Substring(Lower(t.s), name)
  }

  /** `any(t.lower() in name for t in ts)`: the walk stops at the first hit,
      so an item that is not a string raises only when it comes before any
      hit. */
  function AnyTarget(ts: seq<Json>, name: string): Result<bool>
    decreases |ts|
  {
    if ts == [] then Ok(false)
    else if !ts[0].JStr? then Err(AttributeError)
    else if Substring(Lower(ts[0].s), name) then Ok(true)
    else AnyTarget(ts[1..], name)
  }

  /** Every item is a string. */
  predicate Strings(ts: seq<Json>) {
    forall j :: 0 <= j < |ts| ==> ts[j].JStr?
  }

  /** Every item is a string and none hits. */
  predicate Misses(ts: seq<Json>, name: string) {
    forall j :: 0 <= j < |ts| ==> ts[j].JStr? && !Hits(ts[j], name)
  }

  /** A hit with only strings before it makes `any` true. */
  lemma {:induction false} AnyTargetHit(ts: seq<Json>, name: string, k: nat)
    requires k < |ts| && Hits(ts[k], name) && Strings(ts[..k])
    ensures AnyTarget(ts, name) == Ok(true)
    decreases |ts|
  {
    if k > 0 {
      assert ts[..k][0] == ts[0];
      if !Hits(ts[0], name) {
        var rest := ts[1..];
        var before := rest[..k - 1];
        forall j | 0 <= j < k - 1 ensures before[j].JStr? {
          assert before[j] == ts[..k][j + 1];
        }
        AnyTargetHit(rest, name, k - 1);
      }
    }
  }

  /** When `any` is true, the first hit has only strings before it. */
  lemma {:induction false} AnyTargetHitAt(ts: seq<Json>, name: string) returns (k: nat)
    requires AnyTarget(ts, name) == Ok(true)
    ensures k < |ts| && Hits(ts[k], name) && Strings(ts[..k])
    decreases |ts|
  {
    if Hits(ts[0], name) {
      k := 0;
    } else {
      var rest := ts[1..];
      var k' := AnyTargetHitAt(rest, name);
      k := k' + 1;
      forall j | 0 <= j < k ensures ts[..k][j].JStr? {
        if j > 0 {
          assert ts[..k][j] == rest[..k'][j - 1];
        }
      }
    }
  }

  /** `any` is true exactly when some item hits and every item before it is a
      string. */
  lemma AnyTargetTrue(ts: seq<Json>, name: string)
    ensures AnyTarget(ts, name) == Ok(true) <==>
      exists k :: 0 <= k < |ts| && Hits(ts[k], name) && Strings(ts[..k])
  {
    if AnyTarget(ts, name) == Ok(true) {
      var k := AnyTargetHitAt(ts, name);
    }
    forall k | 0 <= k < |ts| && Hits(ts[k], name) && Strings(ts[..k])
      ensures AnyTarget(ts, name) == Ok(true)
    {
      AnyTargetHit(ts, name, k);
    }
  }

  /** A non-string with only misses before it makes `any` raise. */
  lemma {:induction false} AnyTargetBad(ts: seq<Json>, name: string, k: nat)
    requires k < |ts| && !ts[k].JStr? && Misses(ts[..k], name)
    ensures AnyTarget(ts, name) == Err(AttributeError)
    decreases |ts|
  {
    if k > 0 {
      assert ts[..k][0] == ts[0];
      var rest := ts[1..];
      var before := rest[..k - 1];
      forall j | 0 <= j < k - 1 ensures before[j].JStr? && !Hits(before[j], name) {
        assert before[j] == ts[..k][j + 1];
      }
      AnyTargetBad(rest, name, k - 1);
    }
  }

  /** When `any` raises, a non-string comes before any hit, and the error is
      AttributeError. */
  lemma {:induction false} AnyTargetBadAt(ts: seq<Json>, name: string) returns (k: nat)
    requires AnyTarget(ts, name).Err?
    ensures k < |ts| && !ts[k].JStr? && Misses(ts[..k], name)
    ensures AnyTarget(ts, name).error == AttributeError
    decreases |ts|
  {
    if !ts[0].JStr? {
      k := 0;
    } else {
      var rest := ts[1..];
      var k' := AnyTargetBadAt(rest, name);
      k := k' + 1;
      forall j | 0 <= j < k ensures ts[..k][j].JStr? && !Hits(ts[..k][j], name) {
        if j > 0 {
          assert ts[..k][j] == rest[..k'][j - 1];
        }
      }
    }
  }

  /** `any` fails exactly when a non-string comes before any hit, and then
      with AttributeError. */
  lemma AnyTargetErr(ts: seq<Json>, name: string)
    ensures AnyTarget(ts, name).Err? <==>
      exists k :: 0 <= k < |ts| && !ts[k].JStr? && Misses(ts[..k], name)
    ensures AnyTarget(ts, name).Err? ==> AnyTarget(ts, name).error == AttributeError
  {
    if AnyTarget(ts, name).Err? {
      var k := AnyTargetBadAt(ts, name);
    }
    forall k | 0 <= k < |ts| && !ts[k].JStr? && Misses(ts[..k], name)
      ensures AnyTarget(ts, name).Err?
    {
      AnyTargetBad(ts, name, k);
    }
  }

  /** `any` is false exactly when every item is a string and none hits. */
  lemma {:induction false} AnyTargetFalse(ts: seq<Json>, name: string)
    ensures AnyTarget(ts, name) == Ok(false) <==> Misses(ts, name)
    decreases |ts|
  {
    if ts != [] {
      var rest := ts[1..];
      AnyTargetFalse(rest, name);
      assert ts == [ts[0]] + rest;
      if ts[0].JStr? && !Hits(ts[0], name) {
        assert Misses(ts, name) <==> Misses(rest, name);
      }
    }
  }

  /** Whether `search_devices` keeps the device: some target is a
      case-insensitive substring of its name, or else the room is non-empty
      and equals its lower-cased area. Targets that cannot be iterated raise
      TypeError. */
  function DeviceMatch(d: Device, targets: Json, room: string): Result<bool> {
    match Iterate(targets)
    case Err(e) => Err(e)
    case Ok(ts) =>
      match AnyTarget(ts, Lower(d.name))
      case Err(e) => Err(e)
      case Ok(b) => Ok(b || (room != "" && room == Lower(d.area)))
  }

  /** With a list of strings the match never fails: it is "some target is a
      substring of the name, or the room is the area". */
  lemma DeviceMatchStrings(d: Device, items: seq<Json>, room: string)
    requires forall i :: 0 <= i < |items| ==> items[i].JStr?
    ensures DeviceMatch(d, JList(items), room) ==
      Ok((exists i :: 0 <= i < |items| && Substring(Lower(items[i].s), Lower(d.name))) ||
         (room != "" && room == Lower(d.area)))
  {
    var name := Lower(d.name);
    AnyTargetTrue(items, name);
    AnyTargetErr(items, name);
    AnyTargetFalse(items, name);
    if i :| 0 <= i < |items| && Substring(Lower(items[i].s), name) {
      assert Hits(items[i], name);
    } else {
      assert Misses(items, name);
    }
  }

  /** The matching devices, in list order; the first device whose test
      raises ends the loop with its error. */
  function Matching(devices: seq<Device>, targets: Json, room: string): Result<seq<Device>>
    decreases |devices|
  {
    if devices == [] then Ok([])
    else
      var last := devices[|devices| - 1];
      match Matching(devices[..|devices| - 1], targets, room)
      case Err(e) => Err(e)
      case Ok(m) =>
        match DeviceMatch(last, targets, room)
        case Err(e) => Err(e)
        case Ok(b) => Ok(m + if b then [last] else [])
  }

  /** `outs or _DEVICES[:1]` */
  function SearchResult(devices: seq<Device>, targets: Json, room: string): Result<seq<Device>> {
    match Matching(devices, targets, room)
    case Err(e) => Err(e)
    case Ok(outs) => Ok(if outs != [] then outs else devices[..if |devices| < 1 then |devices| else 1])
  }

  /** The loop fails exactly when some device's test fails, and then with
      the error of one of them. */
  lemma {:induction false} MatchingFails(devices: seq<Device>, targets: Json, room: string)
    ensures Matching(devices, targets, room).Ok? <==>
      forall i :: 0 <= i < |devices| ==> DeviceMatch(devices[i], targets, room).Ok?
    ensures Matching(devices, targets, room).Err? ==>
      exists i :: 0 <= i < |devices| && DeviceMatch(devices[i], targets, room) == Err(Matching(devices, targets, room).error)
    decreases |devices|
  {
    if devices != [] {
      var init := devices[..|devices| - 1];
      MatchingFails(init, targets, room);
      forall i | 0 <= i < |init| ensures init[i] == devices[i] { }
    }
  }

  /** A device is listed exactly when it is in the list and matches. */
  lemma {:induction false} MatchingMembers(devices: seq<Device>, targets: Json, room: string, d: Device)
    requires Matching(devices, targets, room).Ok?
    ensures d in Matching(devices, targets, room).value <==> d in devices && DeviceMatch(d, targets, room) == Ok(true)
    decreases |devices|
  {
    if devices != [] {
      var init := devices[..|devices| - 1];
      assert devices == init + [devices[|devices| - 1]];
      MatchingMembers(init, targets, room, d);
    }
  }

  /** The matches keep the order of the list: they form a subsequence. */
  lemma {:induction false} MatchingInOrder(devices: seq<Device>, targets: Json, room: string)
    requires Matching(devices, targets, room).Ok?
    ensures |Matching(devices, targets, room).value| <= |devices|
    ensures forall i :: 0 <= i < |Matching(devices, targets, room).value| ==>
      exists j :: i <= j < |devices| && devices[j] == Matching(devices, targets, room).value[i]
    decreases |devices|
  {
    if devices != [] {
      var init := devices[..|devices| - 1];
      MatchingInOrder(init, targets, room);
      var m := Matching(devices, targets, room).value;
      var mi := Matching(init, targets, room).value;
      forall i | 0 <= i < |m| ensures exists j :: i <= j < |devices| && devices[j] == m[i] {
        if i < |mi| {
          var j :| i <= j < |init| && init[j] == mi[i];
          assert devices[j] == m[i];
        } else {
          assert devices[|devices| - 1] == m[i];
        }
      }
    }
  }

  /** A failure passes through; with no match the first device is the
      answer; otherwise it is the matches. */
  lemma SearchFallback(devices: seq<Device>, targets: Json, room: string)
    ensures Matching(devices, targets, room).Err? ==>
      SearchResult(devices, targets, room) == Err(Matching(devices, targets, room).error)
    ensures Matching(devices, targets, room).Ok? && (forall d :: d in devices ==> DeviceMatch(d, targets, room) != Ok(true)) ==>
      SearchResult(devices, targets, room) == Ok(devices[..if |devices| < 1 then |devices| else 1])
    ensures Matching(devices, targets, room).Ok? && (exists d :: d in devices && DeviceMatch(d, targets, room) == Ok(true)) ==>
      SearchResult(devices, targets, room) == Matching(devices, targets, room)
  {
    var m := Matching(devices, targets, room);
    if m.Ok? {
      if m.value != [] {
        MatchingMembers(devices, targets, room, m.value[0]);
      }
      if d :| d in devices && DeviceMatch(d, targets, room) == Ok(true) {
        MatchingMembers(devices, targets, room, d);
      }
    }
  }

  /** Devices after a failure change nothing. */
  lemma {:induction false} MatchingErrSuffix(pre: seq<Device>, rest: seq<Device>, targets: Json, room: string)
    requires Matching(pre, targets, room).Err?
    ensures Matching(pre + rest, targets, room) == Matching(pre, targets, room)
    decreases |rest|
  {
    if rest != [] {
      var init := rest[..|rest| - 1];
      MatchingErrSuffix(pre, init, targets, room);
      assert pre + rest == (pre + init) + [rest[|rest| - 1]];
      assert (pre + rest)[..|pre + rest| - 1] == pre + init;
    } else {
      assert pre + rest == pre;
    }
  }

  /** A first target that hits settles the device, whatever follows it. */
  lemma FirstHitStops(d: Device, t: string, rest: seq<Json>, room: string)
    requires Substring(Lower(t), Lower(d.name))
    ensures DeviceMatch(d, JList([JStr(t)] + rest), room) == Ok(true)
  {
  }

  /** A first target that is not a string raises for every device. */
  lemma FirstNonStringRaises(d: Device, t: Json, rest: seq<Json>, room: string)
    requires !t.JStr?
    ensures DeviceMatch(d, JList([t] + rest), room) == Err(AttributeError)
  {
  }

  /** When the first target hits every name, every device is found and the
      later targets, strings or not, are never reached. */
  lemma AllHitByFirst(devices: seq<Device>, t: string, rest: seq<Json>, room: string)
    requires forall i :: 0 <= i < |devices| ==> Substring(Lower(t), Lower(devices[i].name))
    ensures Matching(devices, JList([JStr(t)] + rest), room) == Ok(devices)
    ensures SearchResult(devices, JList([JStr(t)] + rest), room) == Ok(devices)
  {
    AllMatchByFirst(devices, t, rest, room);
  }

  lemma {:induction false} AllMatchByFirst(devices: seq<Device>, t: string, rest: seq<Json>, room: string)
    requires forall i :: 0 <= i < |devices| ==> Substring(Lower(t), Lower(devices[i].name))
    ensures Matching(devices, JList([JStr(t)] + rest), room) == Ok(devices)
    decreases |devices|
  {
    if devices != [] {
      var n := |devices| - 1;
      var init := devices[..n];
      forall i | 0 <= i < n ensures Substring(Lower(t), Lower(init[i].name)) {
        assert init[i] == devices[i];
      }
      var targets := JList([JStr(t)] + rest);
      AllMatchByFirst(init, t, rest, room);
      FirstHitStops(devices[n], t, rest, room);
      assert Matching(devices, targets, room) == Ok(init + [devices[n]]);
      PrefixSnoc(devices, n);
      assert devices[..n + 1] == devices;
    }
  }

  /** A first target that is not a string makes the search raise unless
      there is no device to test. */
  lemma FirstNonStringFails(devices: seq<Device>, t: Json, rest: seq<Json>, room: string)
    requires devices != [] && !t.JStr?
    ensures SearchResult(devices, JList([t] + rest), room) == Err(AttributeError)
  {
    var first := devices[..1];
    FirstNonStringRaises(devices[0], t, rest, room);
    assert first[..0] == [] && first[0] == devices[0];
    assert Matching(first, JList([t] + rest), room) == Err(AttributeError);
    MatchingErrSuffix(first, devices[1..], JList([t] + rest), room);
    assert first + devices[1..] == devices;
  }

  // ----------------------------------------------------------------------
  // map_intent_to_action
  // ----------------------------------------------------------------------

  /** The intent with underscores as spaces, lower-cased. */
  function Needle(intent: string): string {
    Lower(ReplaceChar(intent, '_', ' '))
  }

  predicate ActionMatches(a: Action, deviceId: string, needle: string) {
    a.deviceId == deviceId && Substring(needle, Lower(a.name))
  }

  /** The first matching action. */
  function FirstAction(actions: seq<Action>, deviceId: string, needle: string): (r: Option<Action>)
    ensures r.None? ==> forall i :: 0 <= i < |actions| ==> !ActionMatches(actions[i], deviceId, needle)
    ensures r.Some? ==> exists i :: (0 <= i < |actions| && actions[i] == r.value
      && ActionMatches(actions[i], deviceId, needle)
      && forall j :: 0 <= j < i ==> !ActionMatches(actions[j], deviceId, needle))
  {
    if actions == [] then None
    else if ActionMatches(actions[0], deviceId, needle) then Some(actions[0])
    else
      var r := FirstAction(actions[1..], deviceId, needle);
      if r.Some? then
        var i :| 0 <= i < |actions[1..]| && actions[1..][i] == r.value
          && ActionMatches(actions[1..][i], deviceId, needle)
          && forall j :: 0 <= j < i ==> !ActionMatches(actions[1..][j], deviceId, needle);
        assert actions[i + 1] == r.value;
        assert forall j :: 1 <= j < i + 1 ==> actions[j] == actions[1..][j - 1];
        r
      else r
  }

  // ----------------------------------------------------------------------
  // load_schema_hint
  // ----------------------------------------------------------------------

  /** The range of the `value` property, `"0-100"` by default; a non-dict
      on the way has no `get`. */
  function RangeOf(schemaJson: Dict): Result<Json> {
    var props := Get(schemaJson, "properties", JDict([]));
    if !props.JDict? then Err(AttributeError)
    else
      var value := Get(props.entries, "value", JDict([]));
      if !value.JDict? then Err(AttributeError)
      else Ok(Get(value.entries, "range", JStr("0-100")))
  }

  /** `load_schema_hint`: the range as `value_range`, overridden by the
      stored hint entries, and `{}` for an unknown schema. */
  function SchemaHint(schemas: map<string, Schema>, schemaHash: string): (r: Result<Dict>)
    ensures schemaHash !in schemas ==> r == Ok([])
  {
    if schemaHash !in schemas then Ok([])
    else
      var sch := schemas[schemaHash];
      match RangeOf(sch.schemaJson)
      case Err(e) => Err(e)
      case Ok(rng) => Ok(Update([("value_range", rng)], sch.hintJson))
  }

  /** `value_range` comes from the schema's `properties.value.range`
      (default "0-100") unless the hint map has its own; every other key is
      the hint map's. */
  lemma SchemaHintEntries(schemas: map<string, Schema>, schemaHash: string, k: string)
    requires schemaHash in schemas && DistinctKeys(schemas[schemaHash].hintJson)
    requires RangeOf(schemas[schemaHash].schemaJson).Ok?
    ensures var hint := schemas[schemaHash].hintJson;
      var h := SchemaHint(schemas, schemaHash).value;
      Find(h, k) == if HasKey(hint, k) then Find(hint, k)
                    else if k == "value_range" then Some(RangeOf(schemas[schemaHash].schemaJson).value)
                    else None
  {
    var sch := schemas[schemaHash];
    FindUpdate([("value_range", RangeOf(sch.schemaJson).value)], sch.hintJson, k);
  }

  /** The seeded brightness schema: its range, overridden by an equal hint. */
  lemma SeedBrightHint()
    ensures SchemaHint(SeedSchemas, "sch_bright") == Ok([("value_range", JStr("0-100"))])
  {
    var bright := SeedSchemas["sch_bright"];
    var value := [("range", JStr("0-100"))];
    var vr := [("value_range", JStr("0-100"))];
    assert Get(bright.schemaJson, "properties", JDict([])) == JDict([("value", JDict(value))]);
    assert Get([("value", JDict(value))], "value", JDict([])) == JDict(value);
    assert Get(value, "range", JStr("0-100")) == JStr("0-100");
    assert RangeOf(bright.schemaJson) == Ok(JStr("0-100"));
    assert "sch_bright" in SeedSchemas;
    assert SchemaHint(SeedSchemas, "sch_bright") == Ok(Update(vr, bright.hintJson));
    assert Update(vr, bright.hintJson) == Update(Set(vr, "value_range", JStr("0-100")), []);
    assert Set(vr, "value_range", JStr("0-100")) == vr;
  }

  /** Every seeded schema gives a hint with the range `"0-100"`; an unknown
      one gives `{}`. */
  lemma SeedHints(schemaHash: string)
    ensures SchemaHint(SeedSchemas, schemaHash).Ok?
    ensures schemaHash in SeedSchemas ==> Find(SchemaHint(SeedSchemas, schemaHash).value, "value_range") == Some(JStr("0-100"))
    ensures schemaHash !in SeedSchemas ==> SchemaHint(SeedSchemas, schemaHash).value == []
  {
    if schemaHash == "sch_bright" {
      SeedBrightHint();
    } else if schemaHash == "sch_on" {
      SeedOnHint();
    }
  }

  /** The seeded on/off schema: the default range, then the toggle hint. */
  lemma SeedOnHint()
    ensures SchemaHint(SeedSchemas, "sch_on") == Ok([("value_range", JStr("0-100")), ("toggle", JBool(true))])
  {
    var vr := [("value_range", JStr("0-100"))];
    var on := SeedSchemas["sch_on"];
    assert Get(on.schemaJson, "properties", JDict([])) == JDict([]);
    assert RangeOf(on.schemaJson) == Ok(JStr("0-100"));
    assert "sch_on" in SeedSchemas;
    assert SchemaHint(SeedSchemas, "sch_on") == Ok(Update(vr, on.hintJson));
    var both := Set(vr, "toggle", JBool(true));
    assert Update(vr, on.hintJson) == Update(both, []);
    assert Update(both, []) == both;
    assert Set([], "toggle", JBool(true)) == [("toggle", JBool(true))];
    assert both == vr + Set([], "toggle", JBool(true));
    assert vr + [("toggle", JBool(true))] == [("value_range", JStr("0-100")), ("toggle", JBool(true))];
  }

  // ----------------------------------------------------------------------
  // devices_for_area
  // ----------------------------------------------------------------------

  /** What `devices_for_area` proposes for a device of the area. */
  function AreaCandidate(d: Device): Json {
    CandidateJson(d, "act_on", "turn_on", [("toggle", JBool(true))], JDict([]))
  }

  function InArea(devices: seq<Device>, area: string): seq<Json> {
    if devices == [] then []
    else
      var last := devices[|devices| - 1];
      InArea(devices[..|devices| - 1], area) + (if Lower(last.area) == area then [AreaCandidate(last)] else [])
  }

  /** `devices_for_area`: `(area or "").lower()` is evaluated once per
      device, so a truthy non-string area raises only when there are
      devices. */
  function AreaCandidates(devices: seq<Device>, area: Json): Result<seq<Json>> {
    if devices == [] then Ok([])
    else
      match Or(area, JStr(""))
      case JStr(a) => Ok(InArea(devices, Lower(a)))
      case _ => Err(AttributeError)
  }

  /** One candidate per device of the area, in list order. */
  lemma {:induction false} InAreaMembers(devices: seq<Device>, area: string, c: Json)
    ensures |InArea(devices, area)| <= |devices|
    ensures c in InArea(devices, area) <==> exists d :: d in devices && Lower(d.area) == area && c == AreaCandidate(d)
  {
    if devices != [] {
      var init := devices[..|devices| - 1];
      assert devices == init + [devices[|devices| - 1]];
      InAreaMembers(init, area, c);
    }
  }

  // ----------------------------------------------------------------------
  // The static-snapshot indexes
  // ----------------------------------------------------------------------

  /** A stored row is a dict. */
  function RowOf(j: Json): Dict {
    if j.JDict? then j.entries else []
  }

  /** `index.get(key) or {}` */
  function RowAt(index: Dict, key: string): (r: Dict)
    ensures !HasKey(index, key) ==> r == []
  {
    match Find(index, key)
    case Some(j) => RowOf(j)
    case None => []
  }

  /** Every row of an index is a dict, under a key of its own. */
  predicate IndexOk(index: Dict) {
    DistinctKeys(index) && forall i :: 0 <= i < |index| ==> index[i].1.JDict?
  }

  /** `upsert_entity` and `upsert_domain_services` on an index: the new index
      and whether the row changed. `field` is `static_json` or
      `content_json`. */
  function Upsert(index: Dict, key: string, field: string, payload: Json, contentHash: string, now: int): (Dict, bool) {
    var row := RowAt(index, key);
    if row != [] && Get(row, "content_hash", JNull) == JStr(contentHash) then (index, false)
    else (Set(index, key, JDict(UpsertedRow(row, field, payload, contentHash, now))), true)
  }

  /** The old row with the payload field, the hash and the time set. */
  function UpsertedRow(row: Dict, field: string, payload: Json, contentHash: string, now: int): Dict {
    Set(Set(Set(row, field, payload), "content_hash", JStr(contentHash)), "updated_at", JInt(now))
  }

  lemma UpsertedRowFields(row: Dict, field: string, payload: Json, contentHash: string, now: int, k: string)
    requires field != "content_hash" && field != "updated_at"
    ensures Find(UpsertedRow(row, field, payload, contentHash, now), k) ==
           if k == field then Some(payload)
           else if k == "content_hash" then Some(JStr(contentHash))
           else if k == "updated_at" then Some(JInt(now))
           else Find(row, k)
  {
    var r1 := Set(row, field, payload);
    var r2 := Set(r1, "content_hash", JStr(contentHash));
    FindSet(r2, "updated_at", JInt(now), k);
    FindSet(r1, "content_hash", JStr(contentHash), k);
    FindSet(row, field, payload, k);
  }

  /** `upsert_entity`: the key is `static_json["entity_id"]`. */
  function UpsertEntitySpec(index: Dict, staticJson: Dict, contentHash: string, now: int): Result<(Dict, bool)> {
    match EntityKey(staticJson)
    case Err(e) => Err(e)
    case Ok(eid) => Ok(Upsert(index, eid, "static_json", JDict(staticJson), contentHash, now))
  }

  /** `static_json["entity_id"]`, which must be a string. */
  function EntityKey(staticJson: Dict): (r: Result<string>)
    ensures !HasKey(staticJson, "entity_id") ==> r == Err(KeyError)
    ensures r.Ok? ==> Find(staticJson, "entity_id") == Some(JStr(r.value))
    ensures HasKey(staticJson, "entity_id") && !Find(staticJson, "entity_id").value.JStr? ==> r == Err(TypeError)
  {
    match Find(staticJson, "entity_id")
    case None => Err(KeyError)
    case Some(JStr(eid)) => Ok(eid)
    case Some(_) => Err(TypeError)
  }

  lemma {:induction false} SetKeepsRows(index: Dict, key: string, row: Dict)
    requires IndexOk(index)
    ensures IndexOk(Set(index, key, JDict(row)))
  {
    SetKeepsDistinct(index, key, JDict(row));
    if index != [] && index[0].0 != key {
      SetKeepsRows(index[1..], key, row);
    }
  }

  /** An unchanged hash leaves the index alone and reports no change. */
  lemma UpsertSameHash(index: Dict, key: string, field: string, payload: Json, contentHash: string, now: int)
    requires RowAt(index, key) != [] && Get(RowAt(index, key), "content_hash", JNull) == JStr(contentHash)
    ensures Upsert(index, key, field, payload, contentHash, now) == (index, false)
  {
  }

  /** Otherwise the row gets the new payload, hash and time, keeps its other
      fields (such as the `embed_*` bookkeeping), and no other row changes. */
  lemma UpsertNewHash(index: Dict, key: string, field: string, payload: Json, contentHash: string, now: int, k: string)
    requires field != "content_hash" && field != "updated_at"
    requires !(RowAt(index, key) != [] && Get(RowAt(index, key), "content_hash", JNull) == JStr(contentHash))
    ensures var (index', changed) := Upsert(index, key, field, payload, contentHash, now);
      && changed
      && HasKey(index', key)
      && (k != key ==> Find(index', k) == Find(index, k))
      && Find(RowAt(index', key), k) ==
           if k == field then Some(payload)
           else if k == "content_hash" then Some(JStr(contentHash))
           else if k == "updated_at" then Some(JInt(now))
           else Find(RowAt(index, key), k)
  {
    var row := RowAt(index, key);
    var r3 := UpsertedRow(row, field, payload, contentHash, now);
    FindSet(index, key, JDict(r3), k);
    FindSet(index, key, JDict(r3), key);
    UpsertedRowFields(row, field, payload, contentHash, now, k);
  }

  /** Upserting the same snapshot and hash a second time reports no change
      and leaves the index as the first call left it. */
  lemma UpsertTwice(index: Dict, key: string, field: string, payload: Json, contentHash: string, now: int, later: int)
    requires field != "content_hash" && field != "updated_at"
    ensures var index' := Upsert(index, key, field, payload, contentHash, now).0;
      Upsert(index', key, field, payload, contentHash, later) == (index', false)
  {
    var row := RowAt(index, key);
    if !(row != [] && Get(row, "content_hash", JNull) == JStr(contentHash)) {
      UpsertNewHash(index, key, field, payload, contentHash, now, "content_hash");
      var index' := Upsert(index, key, field, payload, contentHash, now).0;
      var r3 := UpsertedRow(row, field, payload, contentHash, now);
      FindSet(index, key, JDict(r3), key);
      assert RowAt(index', key) == r3;
    }
  }

  // ----------------------------------------------------------------------
  // Embedding bookkeeping
  // ----------------------------------------------------------------------

  /** A model or version mismatch, or a falsy `embed_text`. */
  predicate NeedsEmbedding(row: Dict, model: string, version: string) {
    || Get(row, "embed_model", JNull) != JStr(model)
    || Get(row, "embed_version", JNull) != JStr(version)
    || !Truthy(Get(row, "embed_text", JNull))
  }

  /** The keys needing (re)embedding, in index order. */
  function Needing(index: Dict, model: string, version: string): seq<string> {
    if index == [] then []
    else
      var last := index[|index| - 1];
      Needing(index[..|index| - 1], model, version)
        + (if NeedsEmbedding(RowOf(last.1), model, version) then [last.0] else [])
  }

  /** `entities_needing_embedding` lists exactly the keys whose row needs
      embedding. */
  lemma {:induction false} NeedingExactly(index: Dict, model: string, version: string, k: string)
    requires DistinctKeys(index)
    ensures k in Needing(index, model, version) <==> HasKey(index, k) && NeedsEmbedding(RowAt(index, k), model, version)
  {
    if index != [] {
      DistinctInit(index);
      NeedingExactly(index[..|index| - 1], model, version, k);
      NeedingStep(index, model, version, k);
    }
  }

  /** The last entry is listed when its own row needs embedding. */
  lemma NeedingStep(index: Dict, model: string, version: string, k: string)
    requires index != []
    requires !HasKey(index[..|index| - 1], index[|index| - 1].0)
    requires var init := index[..|index| - 1];
      k in Needing(init, model, version) <==> HasKey(init, k) && NeedsEmbedding(RowAt(init, k), model, version)
    ensures k in Needing(index, model, version) <==> HasKey(index, k) && NeedsEmbedding(RowAt(index, k), model, version)
  {
    var init := index[..|index| - 1];
    var last := index[|index| - 1];
    var tail := if NeedsEmbedding(RowOf(last.1), model, version) then [last.0] else [];
    assert Needing(index, model, version) == Needing(init, model, version) + tail;
    FindLast(index, k);
    if k == last.0 {
      assert k !in Needing(init, model, version);
      assert RowAt(index, k) == RowOf(last.1);
    } else {
      assert k !in tail;
      assert RowAt(index, k) == RowAt(init, k);
    }
  }

  /** `Find` on a dict through its last entry. */
  lemma FindLast(index: Dict, k: string)
    requires index != []
    ensures var init, last := index[..|index| - 1], index[|index| - 1];
      Find(index, k) == if HasKey(init, k) then Find(init, k) else if last.0 == k then Some(last.1) else None
  {
    assert index == index[..|index| - 1] + [index[|index| - 1]];
    FindAppend(index[..|index| - 1], index[|index| - 1], k);
  }

  /** Dropping the last entry keeps the keys distinct, and that entry's key
      is not among the others. */
  lemma DistinctInit(index: Dict)
    requires index != [] && DistinctKeys(index)
    ensures DistinctKeys(index[..|index| - 1])
    ensures !HasKey(index[..|index| - 1], index[|index| - 1].0)
  {
    var init := index[..|index| - 1];
    var ks := Keys(init);
    forall j | 0 <= j < |ks| ensures ks[j] != index[|index| - 1].0 {
      assert ks[j] == index[j].0;
    }
  }

  /** `save_entity_embedding` and `save_domain_embedding`: `row.update` of
      the five bookkeeping fields on `index.get(key) or {}`. */
  function SaveEmbedding(index: Dict, key: string, vectorId: int, embedText: string, model: string,
                         version: string, now: int): Dict {
    Set(index, key, JDict(SavedRow(RowAt(index, key), vectorId, embedText, model, version, now)))
  }

  function SavedRow(row: Dict, vectorId: int, embedText: string, model: string, version: string, now: int): Dict {
    Set(Set(Set(Set(Set(row, "vector_id", JInt(vectorId)), "embed_text", JStr(embedText)),
                "embed_model", JStr(model)), "embed_version", JStr(version)), "embedded_at", JInt(now))
  }

  /** The saved row records the model, the version and the text. */
  lemma SavedRowDone(row: Dict, vectorId: int, embedText: string, model: string, version: string, now: int)
    requires embedText != ""
    ensures !NeedsEmbedding(SavedRow(row, vectorId, embedText, model, version, now), model, version)
  {
    SavedModel(row, vectorId, embedText, model, version, now);
    SavedVersion(row, vectorId, embedText, model, version, now);
    SavedText(row, vectorId, embedText, model, version, now);
  }

  lemma SavedModel(row: Dict, vectorId: int, embedText: string, model: string, version: string, now: int)
    ensures Find(SavedRow(row, vectorId, embedText, model, version, now), "embed_model") == Some(JStr(model))
    ensures Get(SavedRow(row, vectorId, embedText, model, version, now), "embed_model", JNull) == JStr(model)
  {
    var r3 := Set(Set(Set(row, "vector_id", JInt(vectorId)), "embed_text", JStr(embedText)), "embed_model", JStr(model));
    var r4 := Set(r3, "embed_version", JStr(version));
    FindSet(r4, "embedded_at", JInt(now), "embed_model");
    FindSet(r3, "embed_version", JStr(version), "embed_model");
    FindSet(Set(Set(row, "vector_id", JInt(vectorId)), "embed_text", JStr(embedText)), "embed_model", JStr(model), "embed_model");
  }

  lemma SavedVersion(row: Dict, vectorId: int, embedText: string, model: string, version: string, now: int)
    ensures Find(SavedRow(row, vectorId, embedText, model, version, now), "embed_version") == Some(JStr(version))
    ensures Get(SavedRow(row, vectorId, embedText, model, version, now), "embed_version", JNull) == JStr(version)
  {
    var r3 := Set(Set(Set(row, "vector_id", JInt(vectorId)), "embed_text", JStr(embedText)), "embed_model", JStr(model));
    var r4 := Set(r3, "embed_version", JStr(version));
    FindSet(r4, "embedded_at", JInt(now), "embed_version");
    FindSet(r3, "embed_version", JStr(version), "embed_version");
  }

  lemma SavedText(row: Dict, vectorId: int, embedText: string, model: string, version: string, now: int)
    ensures Find(SavedRow(row, vectorId, embedText, model, version, now), "embed_text") == Some(JStr(embedText))
    ensures Get(SavedRow(row, vectorId, embedText, model, version, now), "embed_text", JNull) == JStr(embedText)
  {
    var r1 := Set(row, "vector_id", JInt(vectorId));
    var r2 := Set(r1, "embed_text", JStr(embedText));
    var r3 := Set(r2, "embed_model", JStr(model));
    var r4 := Set(r3, "embed_version", JStr(version));
    FindSet(r4, "embedded_at", JInt(now), "embed_text");
    FindSet(r3, "embed_version", JStr(version), "embed_text");
    FindSet(r2, "embed_model", JStr(model), "embed_text");
    FindSet(r1, "embed_text", JStr(embedText), "embed_text");
  }

  /** After saving a non-empty embedding text for the current model and
      version, the key no longer needs embedding; the other keys are as they
      were. */
  lemma SavedNotNeeding(index: Dict, key: string, vectorId: int, embedText: string, model: string,
                        version: string, now: int, k: string)
    requires DistinctKeys(index) && embedText != ""
    ensures var index' := SaveEmbedding(index, key, vectorId, embedText, model, version, now);
      && key !in Needing(index', model, version)
      && (k != key ==> Find(index', k) == Find(index, k))
  {
    var r5 := SavedRow(RowAt(index, key), vectorId, embedText, model, version, now);
    var index' := Set(index, key, JDict(r5));
    FindSet(index, key, JDict(r5), key);
    FindSet(index, key, JDict(r5), k);
    assert RowAt(index', key) == r5;
    SavedRowDone(RowAt(index, key), vectorId, embedText, model, version, now);
    SetKeepsDistinct(index, key, JDict(r5));
    NeedingExactly(index', model, version, key);
  }

  // ----------------------------------------------------------------------
  // get_entity_static and domain_embed_text
  // ----------------------------------------------------------------------

  /** `get_entity_static`: KeyError for a missing or empty row, and for a
      row without `static_json`. */
  function EntityStatic(index: Dict, entityId: string): (r: Result<Json>)
    ensures !HasKey(index, entityId) ==> r == Err(KeyError)
    ensures r.Err? ==> r.error == KeyError
    ensures r.Ok? ==> Find(RowAt(index, entityId), "static_json") == Some(r.value)
  {
    var row := RowAt(index, entityId);
    if row == [] then Err(KeyError)
    else
      match Find(row, "static_json")
      case None => Err(KeyError)
      case Some(v) => Ok(v)
  }

  /** A changed upsert makes the snapshot retrievable. */
  lemma StaticAfterUpsert(index: Dict, staticJson: Dict, contentHash: string, now: int)
    requires UpsertEntitySpec(index, staticJson, contentHash, now).Ok?
    ensures var (index', changed) := UpsertEntitySpec(index, staticJson, contentHash, now).value;
      var eid := Find(staticJson, "entity_id").value.s;
      && (changed ==> EntityStatic(index', eid) == Ok(JDict(staticJson)))
      && (!changed ==> index' == index)
  {
    var eid := Find(staticJson, "entity_id").value.s;
    var row := RowAt(index, eid);
    if !(row != [] && Get(row, "content_hash", JNull) == JStr(contentHash)) {
      UpsertNewHash(index, eid, "static_json", JDict(staticJson), contentHash, now, "static_json");
      var index' := UpsertEntitySpec(index, staticJson, contentHash, now).value.0;
      assert Find(RowAt(index', eid), "static_json") == Some(JDict(staticJson));
    }
  }

  /** A service spec whose field names can be listed: `spec.get` needs a
      dict, and so does listing the keys of its `fields`. */
  predicate Listable(spec: Json) {
    spec.JDict? && Or(Get(spec.entries, "fields", JNull), JDict([])).JDict?
  }

  /** The field names of a service spec, sorted. */
  function FieldNames(spec: Json): seq<string>
    requires Listable(spec)
  {
    Sort(Keys(Or(Get(spec.entries, "fields", JNull), JDict([])).entries))
  }

  /** One line of the domain text: the service name and its fields. */
  function ServiceLine(name: string, spec: Json): string
    requires Listable(spec)
  {
    "- " + name + "(" + Join(", ", FieldNames(spec)) + ")"
  }

  /** One line per service, in the order of the services dict;
      AttributeError when some service's fields cannot be listed. */
  function ServiceLines(services: Dict): Result<seq<string>> {
    if forall i :: 0 <= i < |services| ==> Listable(services[i].1) then
      Ok(seq(|services|, i requires 0 <= i < |services| && Listable(services[i].1) => ServiceLine(services[i].0, services[i].1)))
    else Err(AttributeError)
  }

  /** The lines of `domain_embed_text`. A row without `content_json` raises
      KeyError; services that are not a dict, and a service spec or fields
      that are not dicts, have no `items`/`get`/`keys`. */
  function DomainLines(index: Dict, domain: string): Result<seq<string>> {
    var row := RowAt(index, domain);
    if row == [] then Ok(["domain: " + domain])
    else
      match Find(row, "content_json")
      case None => Err(KeyError)
      case Some(data) => ContentLines(domain, data)
  }

  /** The lines for a stored `content_json` value. */
  function ContentLines(domain: string, data: Json): Result<seq<string>> {
    match GetAttr(data, "services", JDict([]))
    case Err(e) => Err(e)
    case Ok(s) =>
      match Or(s, JDict([]))
      case JDict(services) =>
        (match ServiceLines(services)
         case Err(e) => Err(e)
         case Ok(ls) => Ok(["domain: " + domain, "services:"] + ls))
      case _ => Err(AttributeError)
  }

  /** Each service line lists its field names in sorted order. */
  lemma ServiceFieldsSorted(spec: Json)
    requires Listable(spec)
    ensures Sorted(FieldNames(spec))
  {
    var f := Or(Get(spec.entries, "fields", JNull), JDict([]));
    SortSorted(Keys(f.entries));
  }

  /** A domain stored by `upsert_domain_services` with a services dict
      whose specs carry dict fields yields its header and one line per
      service. */
  lemma DomainLinesOfUpsert(index: Dict, domain: string, services: Dict, contentHash: string, now: int)
    requires forall i :: 0 <= i < |services| ==> Listable(services[i].1)
    requires !(RowAt(index, domain) != [] && Get(RowAt(index, domain), "content_hash", JNull) == JStr(contentHash))
    ensures var index' := Upsert(index, domain, "content_json", JDict([("services", JDict(services))]), contentHash, now).0;
      var lines := DomainLines(index', domain);
      && lines.Ok? && |lines.value| == 2 + |services| && lines.value[..2] == ["domain: " + domain, "services:"]
      && forall i :: 0 <= i < |services| ==> lines.value[2 + i] == ServiceLine(services[i].0, services[i].1)
  {
    var content := JDict([("services", JDict(services))]);
    UpsertNewHash(index, domain, "content_json", content, contentHash, now, "content_json");
    var index' := Upsert(index, domain, "content_json", content, contentHash, now).0;
    DomainLinesOfContent(index', domain, services);
    LinesAfterHeader(["domain: " + domain, "services:"], services);
  }

  /** The header lines, then one line per service. */
  lemma LinesAfterHeader(header: seq<string>, services: Dict)
    requires |header| == 2
    requires forall i :: 0 <= i < |services| ==> Listable(services[i].1)
    ensures var lines := header + ServiceLines(services).value;
      && |lines| == 2 + |services| && lines[..2] == header
      && forall i :: 0 <= i < |services| ==> lines[2 + i] == ServiceLine(services[i].0, services[i].1)
  {
    var body := ServiceLines(services).value;
    var lines := header + body;
    assert |body| == |services|;
    assert lines[..2] == header;
    forall i | 0 <= i < |services| ensures lines[2 + i] == ServiceLine(services[i].0, services[i].1) {
      assert lines[2 + i] == body[i];
    }
  }

  lemma DomainLinesOfContent(index: Dict, domain: string, services: Dict)
    requires forall i :: 0 <= i < |services| ==> Listable(services[i].1)
    requires Find(RowAt(index, domain), "content_json") == Some(JDict([("services", JDict(services))]))
    ensures DomainLines(index, domain) == Ok(["domain: " + domain, "services:"] + ServiceLines(services).value)
  {
    assert RowAt(index, domain) != [];
    ContentLinesOfServices(domain, services);
  }

  lemma ContentLinesOfServices(domain: string, services: Dict)
    requires forall i :: 0 <= i < |services| ==> Listable(services[i].1)
    ensures ContentLines(domain, JDict([("services", JDict(services))]))
         == Ok(["domain: " + domain, "services:"] + ServiceLines(services).value)
  {
    var content := [("services", JDict(services))];
    assert Find(content, "services") == Some(JDict(services));
    assert GetAttr(JDict(content), "services", JDict([])) == Ok(JDict(services));
    assert Or(JDict(services), JDict([])) == JDict(services);
  }

  // ----------------------------------------------------------------------
  // debug_counts
  // ----------------------------------------------------------------------

  /** The number of messages over all chats. */
  ghost function TotalMessages(msgs: map<string, seq<Message>>): nat
    decreases |msgs|
  {
    if msgs == map[] then 0
    else
      var k :| k in msgs;
      |msgs[k]| + TotalMessages(msgs - {k})
  }

  /** The total does not depend on which chat is counted first. */
  lemma TotalRemove(msgs: map<string, seq<Message>>, k: string)
    requires k in msgs
    ensures TotalMessages(msgs) == |msgs[k]| + TotalMessages(msgs - {k})
    decreases |msgs|
  {
    var j :| j in msgs && TotalMessages(msgs) == |msgs[j]| + TotalMessages(msgs - {j});
    if j != k {
      TotalRemove(msgs - {j}, k);
      TotalRemove(msgs - {k}, j);
      assert msgs - {j} - {k} == msgs - {k} - {j};
    }
  }

  // ----------------------------------------------------------------------
  // The store
  // ----------------------------------------------------------------------

  predicate SessionsOk(sessions: map<string, Session>) {
    forall c :: c in sessions ==> sessions[c].chatId == c
  }

  predicate MessagesOk(messages: map<string, seq<Message>>) {
    forall c, i :: c in messages && 0 <= i < |messages[c]| ==> messages[c][i].chatId == c
  }

  /** The matching-device loop of `search_devices`. */
  method MatchLoop(devices: seq<Device>, targets: Json, room: string) returns (r: Result<seq<Device>>)
    ensures r == Matching(devices, targets, room)
  {
    var outs := [];
    for i := 0 to |devices|
      invariant Matching(devices[..i], targets, room) == Ok(outs)
    {
      assert devices[..i + 1][..i] == devices[..i];
      var keep := DeviceMatch(devices[i], targets, room);
      if keep.Err? {
        assert devices == devices[..i + 1] + devices[i + 1..];
        MatchingErrSuffix(devices[..i + 1], devices[i + 1..], targets, room);
        return Err(keep.error);
      }
      outs := outs + if keep.value then [devices[i]] else [];
    }
    assert devices[..|devices|] == devices;
    return Ok(outs);
  }

  /** The loop of `devices_for_area`. */
  method AreaLoop(devices: seq<Device>, wanted: string) returns (outs: seq<Json>)
    ensures outs == InArea(devices, wanted)
  {
    outs := [];
    for i := 0 to |devices|
      invariant outs == InArea(devices[..i], wanted)
    {
      assert devices[..i + 1][..i] == devices[..i];
      if Lower(devices[i].area) == wanted {
        outs := outs + [AreaCandidate(devices[i])];
      }
    }
    assert devices[..|devices|] == devices;
  }

  /** The first-match loop of `map_intent_to_action`. */
  method FirstActionLoop(actions: seq<Action>, deviceId: string, needle: string) returns (r: Option<Action>)
    ensures r == FirstAction(actions, deviceId, needle)
  {
    for i := 0 to |actions|
      invariant FirstAction(actions, deviceId, needle) == FirstAction(actions[i..], deviceId, needle)
    {
      assert actions[i..][1..] == actions[i + 1..];
      if ActionMatches(actions[i], deviceId, needle) {
        return Some(actions[i]);
      }
    }
    return None;
  }

  /** The needing-embedding loop over one index. */
  method NeedingLoop(index: Dict, model: string, version: string) returns (need: seq<string>)
    ensures need == Needing(index, model, version)
  {
    need := [];
    for i := 0 to |index|
      invariant need == Needing(index[..i], model, version)
    {
      assert index[..i + 1][..i] == index[..i];
      var (key, row) := index[i];
      if NeedsEmbedding(RowOf(row), model, version) {
        need := need + [key];
      }
    }
    assert index[..|index|] == index;
  }

  lemma ServiceLinesFail(e: Dict, i: nat)
    requires i < |e| && !Listable(e[i].1)
    ensures ServiceLines(e) == Err(AttributeError)
  {
  }

  lemma ServiceLinesAll(e: Dict, parts: seq<string>)
    requires forall j :: 0 <= j < |e| ==> Listable(e[j].1)
    requires |parts| == |e|
    requires forall j :: 0 <= j < |e| ==> parts[j] == ServiceLine(e[j].0, e[j].1)
    ensures ServiceLines(e) == Ok(parts)
  {
    var lines := ServiceLines(e).value;
    assert |lines| == |parts|;
    forall j | 0 <= j < |e| ensures lines[j] == parts[j] {
    }
    assert lines == parts;
  }

  /** The loop of `domain_embed_text` over the services dict. */
  method ServiceLinesLoop(e: Dict) returns (r: Result<seq<string>>)
    ensures r == ServiceLines(e)
  {
    var parts := [];
    for i := 0 to |e|
      invariant |parts| == i
      invariant forall j :: 0 <= j < i ==> Listable(e[j].1) && parts[j] == ServiceLine(e[j].0, e[j].1)
    {
      if !Listable(e[i].1) {
        ServiceLinesFail(e, i);
        return Err(AttributeError);
      }
      var line := ServiceLine(e[i].0, e[i].1);
      parts := Snoc(parts, line);
    }
    ServiceLinesAll(e, parts);
    return Ok(parts);
  }

  /** The number of stored messages over all chats. */
  method CountMessages(msgs: map<string, seq<Message>>) returns (total: nat)
    ensures total == TotalMessages(msgs)
  {
    var rest := msgs;
    total := 0;
    while rest != map[]
      invariant TotalMessages(msgs) == total + TotalMessages(rest)
      decreases |rest|
    {
      var k :| k in rest;
      TotalRemove(rest, k);
      total := total + |rest[k]|;
      rest := rest - {k};
    }
  }

  /** The sessions after `update_summary`: the chat's rolling summary gains
      the exchange, and a chat without a session is left alone. */
  function WithSummary(sessions: map<string, Session>, chatId: string, user: string, assistant: Json, now: int): (r: map<string, Session>)
    ensures chatId !in sessions ==> r == sessions
    ensures r.Keys == sessions.Keys
    ensures forall c :: c in sessions && c != chatId ==> r[c] == sessions[c]
    ensures chatId in sessions ==>
      && r[chatId].chatId == sessions[chatId].chatId
      && r[chatId].tenantId == sessions[chatId].tenantId
      && r[chatId].summaryText == Summarizer.UpdateSummary(Some(sessions[chatId].summaryText), user, Str(assistant))
      && r[chatId].updatedAt == now
  {
    if chatId in sessions then
      var s := sessions[chatId];
      sessions[chatId := s.(summaryText := Summarizer.UpdateSummary(Some(s.summaryText), user, Str(assistant)), updatedAt := now)]
    else sessions
  }

  /** The module-level tables that every `Repo` shares. */
  class Repo {
    var sessions: map<string, Session>
    var messages: map<string, seq<Message>>
    var deviceIndex: Dict
    var domainIndex: Dict

    /** Each session and message sits under its own chat id; each index row
        is a dict under a key of its own. */
    ghost predicate Valid()
      reads this
    {
      SessionsOk(sessions) && MessagesOk(messages) && IndexOk(deviceIndex) && IndexOk(domainIndex)
    }

    constructor()
      ensures Valid()
      ensures sessions == map[] && messages == map[] && deviceIndex == [] && domainIndex == []
    {
      sessions := map[];
      messages := map[];
      deviceIndex := [];
      domainIndex := [];
    }

    // ===== Sessions / messages =====

    /** `load_or_init_session`: a new session starts with an empty summary
        and an empty message list; an existing one is returned as it is. */
    method LoadOrInitSession(chatId: string, tenantId: Option<string>, now: int) returns (s: Session)
      requires Valid()
      modifies this`sessions, this`messages
      ensures Valid()
      ensures chatId in old(sessions) ==> s == old(sessions)[chatId] && sessions == old(sessions) && messages == old(messages)
      ensures chatId !in old(sessions) ==>
        && s == Session(chatId, tenantId, "", now)
        && sessions == old(sessions)[chatId := s]
        && messages == old(messages)[chatId := []]
    {
      if chatId in sessions {
        s := sessions[chatId];
      } else {
        s := Session(chatId, tenantId, "", now);
        sessions := sessions[chatId := s];
        messages := messages[chatId := []];
      }
    }

    function MessagesOf(chatId: string): seq<Message>
      reads this
    {
      if chatId in messages then messages[chatId] else []
    }

    /** `add_message`: the message goes last in its chat's list. */
    method AddMessage(chatId: string, role: string, content: Json, now: int)
      requires Valid()
      modifies this`messages
      ensures Valid()
      ensures messages == old(messages)[chatId := old(MessagesOf(chatId)) + [Message(chatId, role, content, now)]]
    {
      messages := messages[chatId := MessagesOf(chatId) + [Message(chatId, role, content, now)]];
    }

    /** `load_summary` */
    function LoadSummary(chatId: string): (r: string)
      reads this
      ensures chatId !in sessions ==> r == ""
      ensures chatId in sessions ==> r == sessions[chatId].summaryText
    {
      if chatId in sessions then sessions[chatId].summaryText else ""
    }

    /** `update_summary`: nothing happens for a chat without a session. The
        assistant text is formatted with `str()`. */
    method UpdateSummary(chatId: string, user: string, assistant: Json, now: int)
      requires Valid()
      modifies this`sessions
      ensures Valid()
      ensures sessions == WithSummary(old(sessions), chatId, user, assistant, now)
    {
      if chatId in sessions {
        var s := sessions[chatId];
        sessions := sessions[chatId := s.(summaryText := Summarizer.UpdateSummary(Some(s.summaryText), user, Str(assistant)), updatedAt := now)];
      }
    }

    // ===== Devices / actions / schemas =====

    /** `search_devices` over the seeded devices. */
    method SearchDevices(targets: Json, context: Dict) returns (r: Result<seq<Device>>)
      ensures RoomOf(context).Err? ==> r == Err(RoomOf(context).error)
      ensures RoomOf(context).Ok? ==> r == SearchResult(SeedDevices, targets, RoomOf(context).value)
    {
      var room0 := RoomOf(context);
      if room0.Err? {
        return Err(room0.error);
      }
      var found := MatchLoop(SeedDevices, targets, room0.value);
      if found.Err? {
        return Err(found.error);
      }
      var outs := found.value;
      if outs == [] {
        outs := SeedDevices[..1];
      }
      return Ok(outs);
    }

    /** `map_intent_to_action`: the first seeded action of the device whose
        lower-cased name contains the needle. */
    method MapIntentToAction(dev: Device, intent: string) returns (r: Option<Action>)
      ensures r == FirstAction(SeedActions, dev.id, Needle(intent))
    {
      r := FirstActionLoop(SeedActions, dev.id, Needle(intent));
    }

    /** `load_schema_hint` over the seeded schemas: it never raises. */
    function LoadSchemaHint(schemaHash: string): (r: Result<Dict>)
      ensures r.Ok?
      ensures schemaHash in SeedSchemas ==> Find(r.value, "value_range") == Some(JStr("0-100"))
      ensures schemaHash !in SeedSchemas ==> r.value == []
    {
      SeedHints(schemaHash);
      SchemaHint(SeedSchemas, schemaHash)
    }

    /** `devices_for_area` over the seeded devices. */
    method DevicesForArea(area: Json) returns (r: Result<seq<Json>>)
      ensures r == AreaCandidates(SeedDevices, area)
    {
      var a := Or(area, JStr(""));
      if !a.JStr? {
        return Err(AttributeError);
      }
      var outs := AreaLoop(SeedDevices, Lower(a.s));
      return Ok(outs);
    }

    // ===== Static snapshots and embeddings =====

    /** `upsert_entity` */
    method UpsertEntity(staticJson: Dict, contentHash: string, now: int) returns (r: Result<bool>)
      requires Valid()
      modifies this`deviceIndex
      ensures Valid()
      ensures var spec := UpsertEntitySpec(old(deviceIndex), staticJson, contentHash, now);
        && (spec.Err? ==> r == Err(spec.error) && deviceIndex == old(deviceIndex))
        && (spec.Ok? ==> r == Ok(spec.value.1) && deviceIndex == spec.value.0)
    {
      var eid := EntityKey(staticJson);
      if eid.Err? {
        return Err(eid.error);
      }
      var changed := UpsertDevice(eid.value, staticJson, contentHash, now);
      return Ok(changed);
    }

    /** The part of `upsert_entity` after the key is known. */
    method UpsertDevice(key: string, staticJson: Dict, contentHash: string, now: int) returns (changed: bool)
      requires Valid()
      modifies this`deviceIndex
      ensures Valid()
      ensures (deviceIndex, changed) == Upsert(old(deviceIndex), key, "static_json", JDict(staticJson), contentHash, now)
    {
      var row := RowAt(deviceIndex, key);
      if row != [] && Get(row, "content_hash", JNull) == JStr(contentHash) {
        return false;
      }
      var newRow := UpsertedRow(row, "static_json", JDict(staticJson), contentHash, now);
      SetKeepsRows(deviceIndex, key, newRow);
      deviceIndex := Set(deviceIndex, key, JDict(newRow));
      return true;
    }

    /** `upsert_domain_services` */
    method UpsertDomainServices(domain: string, contentJson: Dict, contentHash: string, now: int) returns (changed: bool)
      requires Valid()
      modifies this`domainIndex
      ensures Valid()
      ensures (domainIndex, changed) == Upsert(old(domainIndex), domain, "content_json", JDict(contentJson), contentHash, now)
    {
      var row := RowAt(domainIndex, domain);
      if row != [] && Get(row, "content_hash", JNull) == JStr(contentHash) {
        return false;
      }
      var newRow := UpsertedRow(row, "content_json", JDict(contentJson), contentHash, now);
      SetKeepsRows(domainIndex, domain, newRow);
      domainIndex := Set(domainIndex, domain, JDict(newRow));
      return true;
    }

    /** `entities_needing_embedding` */
    method EntitiesNeedingEmbedding(model: string, version: string) returns (need: seq<string>)
      ensures need == Needing(deviceIndex, model, version)
    {
      need := NeedingLoop(deviceIndex, model, version);
    }

    /** `services_needing_embedding` */
    method ServicesNeedingEmbedding(model: string, version: string) returns (need: seq<string>)
      ensures need == Needing(domainIndex, model, version)
    {
      need := NeedingLoop(domainIndex, model, version);
    }

    /** `get_entity_static` */
    function GetEntityStatic(entityId: string): (r: Result<Json>)
      reads this
      ensures !HasKey(deviceIndex, entityId) ==> r == Err(KeyError)
      ensures r.Err? ==> r.error == KeyError
      ensures r.Ok? ==> Find(RowAt(deviceIndex, entityId), "static_json") == Some(r.value)
    {
      EntityStatic(deviceIndex, entityId)
    }

    /** `domain_embed_text`: the lines joined by newlines. */
    method DomainEmbedText(domain: string) returns (r: Result<string>)
      ensures var lines := DomainLines(domainIndex, domain);
        && (lines.Err? ==> r == Err(lines.error))
        && (lines.Ok? ==> r == Ok(Join("\n", lines.value)))
    {
      var row := RowAt(domainIndex, domain);
      if row == [] {
        return Ok("domain: " + domain);
      }
      var data := Find(row, "content_json");
      if data.None? {
        return Err(KeyError);
      }
      var s := GetAttr(data.value, "services", JDict([]));
      if s.Err? {
        return Err(s.error);
      }
      var services := Or(s.value, JDict([]));
      if !services.JDict? {
        return Err(AttributeError);
      }
      var lines := ServiceLinesLoop(services.entries);
      if lines.Err? {
        return Err(lines.error);
      }
      return Ok(Join("\n", ["domain: " + domain, "services:"] + lines.value));
    }

    /** `save_entity_embedding` */
    method SaveEntityEmbedding(entityId: string, vectorId: int, embedText: string, model: string, version: string, now: int)
      requires Valid()
      modifies this`deviceIndex
      ensures Valid()
      ensures deviceIndex == SaveEmbedding(old(deviceIndex), entityId, vectorId, embedText, model, version, now)
    {
      var row := RowAt(deviceIndex, entityId);
      row := SavedRow(row, vectorId, embedText, model, version, now);
      SetKeepsRows(deviceIndex, entityId, row);
      deviceIndex := Set(deviceIndex, entityId, JDict(row));
    }

    /** `save_domain_embedding` */
    method SaveDomainEmbedding(domain: string, vectorId: int, embedText: string, model: string, version: string, now: int)
      requires Valid()
      modifies this`domainIndex
      ensures Valid()
      ensures domainIndex == SaveEmbedding(old(domainIndex), domain, vectorId, embedText, model, version, now)
    {
      var row := RowAt(domainIndex, domain);
      row := SavedRow(row, vectorId, embedText, model, version, now);
      SetKeepsRows(domainIndex, domain, row);
      domainIndex := Set(domainIndex, domain, JDict(row));
    }

    // ===== Introspection =====

    /** `debug_counts` */
    method DebugCounts() returns (counts: Dict)
      ensures counts == [
        ("sessions", JInt(|sessions|)), ("messages", JInt(TotalMessages(messages))),
        ("devices_seeded", JInt(|SeedDevices|)), ("actions_seeded", JInt(|SeedActions|)),
        ("schemas_seeded", JInt(|SeedSchemas|)), ("device_index", JInt(|deviceIndex|)),
        ("domain_index", JInt(|domainIndex|))]
    {
      var total := CountMessages(messages);
      counts := [
        ("sessions", JInt(|sessions|)), ("messages", JInt(total)),
        ("devices_seeded", JInt(|SeedDevices|)), ("actions_seeded", JInt(|SeedActions|)),
        ("schemas_seeded", JInt(|SeedSchemas|)), ("device_index", JInt(|deviceIndex|)),
        ("domain_index", JInt(|domainIndex|))];
    }
  }
}
