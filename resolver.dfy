/** Turning an extracted intent into a decision bundle: argument words are
    normalised to numbers, at most three devices are considered, and each
    device with a mapped action contributes one candidate whose proposed
    arguments are clamped into the action's schema range. */
module Resolver {
  import opened PyValues
  import opened Text
  import opened JsonIO
  import opened Repository

  // ----------------------------------------------------------------------
  // _normalize_args
  // ----------------------------------------------------------------------

  /** The qualitative words and their numbers. */
  function WordValue(v: string): (r: Option<int>)
    ensures r.Some? ==> 0 <= r.value <= 100
  {
    if v == "low" then Some(25)
    else if v == "medium" || v == "med" then Some(50)
    else if v == "high" then Some(75)
    else if v == "max" then Some(100)
    else None
  }

  /** The new value for a string `value`: a mapped word, else
      `int(float(v))`, else nothing (the bare `except` keeps the old one). */
  function NormalizedValue(s: string): (r: Option<int>)
    ensures r.Some? && r.value < 0 ==> '-' in s
  {
    var v := Strip(Lower(s));
    var w := WordValue(v);
    if w.Some? then w
    else
      MinusSurvives(s);
      ParseFloatTrunc(v)
  }

  /** Lower-casing and stripping cannot make a `-`. */
  lemma MinusSurvives(s: string)
    ensures '-' in Strip(Lower(s)) ==> '-' in s
  {
    var v := Strip(Lower(s));
    if '-' in v {
      var k :| 0 <= k < |v| && v[k] == '-';
      assert v[k] in Lower(s);
      var j :| 0 <= j < |s| && Lower(s)[j] == '-';
      assert LowerChar(s[j]) == '-';
    }
  }

  /** `_normalize_args`: rewrites a string `value` in place; the dict is
      returned. */
  function NormalizeArgs(args: Dict): (r: Dict)
    ensures Keys(r) == Keys(args)
  {
    match Find(args, "value")
    case Some(JStr(s)) =>
      (match NormalizedValue(s)
       case Some(n) => Set(args, "value", JInt(n))
       case None => args)
    case _ => args
  }

  /** Only `value` can change, and the keys keep their order. */
  lemma NormalizeKeeps(args: Dict, k: string)
    ensures k != "value" ==> Find(NormalizeArgs(args), k) == Find(args, k)
  {
    match Find(args, "value")
    case Some(JStr(s)) =>
      if NormalizedValue(s).Some? {
        FindSet(args, "value", JInt(NormalizedValue(s).value), k);
      }
    case _ =>
  }

  /** A word of the table, in any case and with surrounding blanks, becomes
      its number; any other string that `float()` accepts becomes its
      integer part. */
  lemma NormalizeString(args: Dict, s: string)
    requires Find(args, "value") == Some(JStr(s))
    ensures NormalizedValue(s).Some? ==> Find(NormalizeArgs(args), "value") == Some(JInt(NormalizedValue(s).value))
    ensures NormalizedValue(s).None? ==> NormalizeArgs(args) == args
  {
    if NormalizedValue(s).Some? {
      FindSet(args, "value", JInt(NormalizedValue(s).value), "value");
    }
  }

  /** A missing or non-string `value` leaves the arguments alone. */
  lemma NormalizeNonString(args: Dict)
    requires Find(args, "value").None? || !Find(args, "value").value.JStr?
    ensures NormalizeArgs(args) == args
  {
  }

  /** Normalising twice is normalising once: the new value is an int. */
  lemma NormalizeIdempotent(args: Dict)
    ensures NormalizeArgs(NormalizeArgs(args)) == NormalizeArgs(args)
  {
    var once := NormalizeArgs(args);
    match Find(args, "value")
    case Some(JStr(s)) =>
      if NormalizedValue(s).Some? {
        FindSet(args, "value", JInt(NormalizedValue(s).value), "value");
      }
    case _ =>
  }

  lemma WordHigh()
    ensures NormalizedValue("High") == Some(75)
  {
    var v := Lower("High");
    assert |v| == 4;
    assert v[0] == 'h';
    assert v[1] == 'i';
    assert v[2] == 'g';
    assert v[3] == 'h';
    assert v == "high";
    assert WordValue("high") == Some(75);
    StripUnpadded(v);
    assert Strip(v) == "high";
  }

  lemma WordMed()
    ensures NormalizedValue("MED") == Some(50)
  {
    var v := Lower("MED");
    assert |v| == 3;
    assert v[0] == 'm';
    assert v[1] == 'e';
    assert v[2] == 'd';
    assert v == "med";
    assert WordValue("med") == Some(50);
    StripUnpadded(v);
    assert Strip(v) == "med";
  }

  // ----------------------------------------------------------------------
  // build_bundle_from_intent
  // ----------------------------------------------------------------------

  /** The body of the loop for one device: `None` when the device has no
      mapped action. `intent["intent"]` must exist and have `replace`. */
  function CandidateFor(actions: seq<Action>, schemas: map<string, Schema>, intent: Dict, dev: Device): (r: Result<Option<Json>>)
    ensures Find(intent, "intent").None? ==> r == Err(KeyError)
    ensures r.Ok? && r.value.Some? ==>
      && r.value.value.JDict? && |r.value.value.entries| == 4
      && r.value.value.entries[0] == ("device", JDict([("id", JStr(dev.id)), ("name", JStr(dev.name)), ("type", JStr(dev.kind))]))
  {
    match Find(intent, "intent")
    case None => Err(KeyError)
    case Some(JStr(name)) =>
      (match FirstAction(actions, dev.id, Needle(name))
       case None => Ok(None)
       case Some(a) =>
         match DictOf(Get(intent, "args", JDict([])))
         case Err(e) => Err(e)
         case Ok(raw) =>
           match SchemaHint(schemas, a.schemaHash)
           case Err(e) => Err(e)
           case Ok(hint) =>
             match Clamp(JDict(NormalizeArgs(raw)), hint)
             case Err(e) => Err(e)
             case Ok(args) => Ok(Some(CandidateJson(dev, a.id, a.name, hint, args))))
    case Some(_) => Err(AttributeError)
  }

  /** The candidates for a list of devices, in device order. */
  function Candidates(actions: seq<Action>, schemas: map<string, Schema>, intent: Dict, devices: seq<Device>): Result<seq<Json>> {
    if devices == [] then Ok([])
    else
      match Candidates(actions, schemas, intent, devices[..|devices| - 1])
      case Err(e) => Err(e)
      case Ok(cs) =>
        match CandidateFor(actions, schemas, intent, devices[|devices| - 1])
        case Err(e) => Err(e)
        case Ok(None) => Ok(cs)
        case Ok(Some(c)) => Ok(cs + [c])
  }

  /** `repo.sample_examples`: one canned example. */
  const SampleExamples: Json := JList([JDict([
    ("user", JStr("make it dimmer")),
    ("resolved", JDict([("device_id", JStr("dev_42")), ("action_id", JStr("act_brightness"))])),
    ("args", JDict([("value", JInt(25))])),
    ("result", JStr("ok"))
  ])])

  function BundleDict(intent: Dict, context: Dict, candidates: seq<Json>): Dict {
    [("user", JDict(intent)), ("context", JDict(context)), ("candidates", JList(candidates)),
     ("examples", SampleExamples)]
  }

  function Take3(devices: seq<Device>): (r: seq<Device>)
    ensures |r| <= 3 && |r| <= |devices| && r == devices[..|r|]
    ensures |devices| >= 3 ==> |r| == 3
  {
    if |devices| <= 3 then devices else devices[..3]
  }

  /** `build_bundle_from_intent` as a value: `search_devices` reads the
      room, then tests every device against the targets; then the first
      three devices found are tried. */
  function Bundle(devices: seq<Device>, actions: seq<Action>, schemas: map<string, Schema>,
                  intent: Dict, context: Dict): (r: Result<Dict>)
    ensures RoomOf(context).Err? ==> r == Err(AttributeError)
    ensures RoomOf(context).Ok? && devices != [] && Iterate(Get(intent, "targets", JList([]))).Err? ==> r == Err(TypeError)
  {
    match RoomOf(context)
    case Err(e) => Err(e)
    case Ok(room) =>
      MatchingFails(devices, Get(intent, "targets", JList([])), room);
      match SearchResult(devices, Get(intent, "targets", JList([])), room)
      case Err(e) => Err(e)
      case Ok(found) =>
        match Candidates(actions, schemas, intent, Take3(found))
        case Err(e) => Err(e)
        case Ok(cs) => Ok(BundleDict(intent, context, cs))
  }

  /** Each device contributes at most one candidate. */
  lemma {:induction false} CandidatesAtMost(actions: seq<Action>, schemas: map<string, Schema>, intent: Dict, devices: seq<Device>)
    requires Candidates(actions, schemas, intent, devices).Ok?
    ensures |Candidates(actions, schemas, intent, devices).value| <= |devices|
  {
    if devices != [] {
      CandidatesAtMost(actions, schemas, intent, devices[..|devices| - 1]);
    }
  }

  /** A device without a mapped action contributes nothing: when no device
      has one, there are no candidates. */
  lemma {:induction false} CandidatesNone(actions: seq<Action>, schemas: map<string, Schema>, intent: Dict,
                                          devices: seq<Device>, name: string)
    requires Find(intent, "intent") == Some(JStr(name))
    requires forall i :: 0 <= i < |devices| ==> FirstAction(actions, devices[i].id, Needle(name)).None?
    ensures Candidates(actions, schemas, intent, devices) == Ok([])
  {
    if devices != [] {
      CandidatesNone(actions, schemas, intent, devices[..|devices| - 1], name);
    }
  }

  lemma BundleDictFields(intent: Dict, context: Dict, cs: seq<Json>)
    ensures var b := BundleDict(intent, context, cs);
      && Find(b, "user") == Some(JDict(intent))
      && Find(b, "context") == Some(JDict(context))
      && Find(b, "candidates") == Some(JList(cs))
      && Find(b, "examples") == Some(SampleExamples)
  {
    var b := BundleDict(intent, context, cs);
    assert DistinctKeys(b);
    assert b[3] == ("examples", SampleExamples);
    FindDistinct(b, "examples", SampleExamples);
  }

  /** A bundle holds the intent as given (the intent's own `args` are not
      touched), the context, the canned examples and at most three
      candidates. */
  lemma BundleShape(catalog: seq<Device>, actions: seq<Action>, schemas: map<string, Schema>, intent: Dict, context: Dict)
    requires Bundle(catalog, actions, schemas, intent, context).Ok?
    ensures var b := Bundle(catalog, actions, schemas, intent, context).value;
      && Find(b, "user") == Some(JDict(intent))
      && Find(b, "context") == Some(JDict(context))
      && Find(b, "examples") == Some(SampleExamples)
      && Find(b, "candidates").Some? && Find(b, "candidates").value.JList?
      && |Find(b, "candidates").value.items| <= 3
  {
    var room := RoomOf(context).value;
    var devices := Take3(SearchResult(catalog, Get(intent, "targets", JList([])), room).value);
    var cs := Candidates(actions, schemas, intent, devices).value;
    assert Bundle(catalog, actions, schemas, intent, context) == Ok(BundleDict(intent, context, cs));
    CandidatesAtMost(actions, schemas, intent, devices);
    BundleDictFields(intent, context, cs);
  }

  /** A device's candidate carries its action, the action's hint and the
      intent's arguments normalised and then clamped with that hint: every
      key of the intent's arguments is kept, only `value` can differ, and
      a clampable value ends up clamped into the hint's range. */
  lemma CandidateArgs(actions: seq<Action>, schemas: map<string, Schema>, intent: Dict, dev: Device,
                      name: string, a: Action, raw: Dict, hint: Dict, k: string)
    requires Find(intent, "intent") == Some(JStr(name))
    requires FirstAction(actions, dev.id, Needle(name)) == Some(a)
    requires DictOf(Get(intent, "args", JDict([]))) == Ok(raw)
    requires SchemaHint(schemas, a.schemaHash) == Ok(hint)
    ensures Clamp(JDict(NormalizeArgs(raw)), hint).Ok?
    ensures var args := Clamp(JDict(NormalizeArgs(raw)), hint).value;
      && CandidateFor(actions, schemas, intent, dev) == Ok(Some(CandidateJson(dev, a.id, a.name, hint, args)))
      && args.JDict? && Keys(args.entries) == Keys(raw)
      && (k != "value" ==> Find(args.entries, k) == Find(raw, k))
      && (ClampedValue(NormalizeArgs(raw), Get(hint, "value_range", JNull)).Some? ==>
            Find(args.entries, "value") == Some(JInt(ClampedValue(NormalizeArgs(raw), Get(hint, "value_range", JNull)).value)))
  {
    var normalized := NormalizeArgs(raw);
    NormalizeKeeps(raw, k);
    ClampDictKeeps(normalized, hint);
    var args := Clamp(JDict(normalized), hint).value;
    assert CandidateFor(actions, schemas, intent, dev) == Ok(Some(CandidateJson(dev, a.id, a.name, hint, args)));
    if ClampedValue(normalized, Get(hint, "value_range", JNull)).Some? {
      ClampSetsValue(normalized, hint);
    }
  }

  /** A failure at some device is the failure of the whole loop. */
  lemma CandidatesErr(actions: seq<Action>, schemas: map<string, Schema>, intent: Dict,
                      devices: seq<Device>, n: nat)
    requires n <= |devices| && Candidates(actions, schemas, intent, devices[..n]).Err?
    ensures Candidates(actions, schemas, intent, devices) == Candidates(actions, schemas, intent, devices[..n])
  {
    assert devices == devices[..n] + devices[n..];
    CandidatesErrSuffix(actions, schemas, intent, devices[..n], devices[n..]);
  }

  /** Devices after a failure change nothing. */
  lemma {:induction false} CandidatesErrSuffix(actions: seq<Action>, schemas: map<string, Schema>, intent: Dict,
                                               pre: seq<Device>, rest: seq<Device>)
    requires Candidates(actions, schemas, intent, pre).Err?
    ensures Candidates(actions, schemas, intent, pre + rest) == Candidates(actions, schemas, intent, pre)
    decreases |rest|
  {
    if rest != [] {
      var init := rest[..|rest| - 1];
      CandidatesErrSuffix(actions, schemas, intent, pre, init);
      assert pre + rest == (pre + init) + [rest[|rest| - 1]];
      CandidatesErrStep(actions, schemas, intent, pre + init, rest[|rest| - 1]);
    } else {
      assert pre + rest == pre;
    }
  }

  lemma CandidatesErrStep(actions: seq<Action>, schemas: map<string, Schema>, intent: Dict, pre: seq<Device>, last: Device)
    requires Candidates(actions, schemas, intent, pre).Err?
    ensures Candidates(actions, schemas, intent, pre + [last]) == Candidates(actions, schemas, intent, pre)
  {
    assert (pre + [last])[..|pre|] == pre;
  }

  /** `build_bundle_from_intent`. */
  method BuildBundle(repo: Repo, intent: Dict, context: Dict) returns (r: Result<Dict>)
    ensures r == Bundle(SeedDevices, SeedActions, SeedSchemas, intent, context)
  {
    var found := repo.SearchDevices(Get(intent, "targets", JList([])), context);
    if found.Err? {
      return Err(found.error);
    }
    var candidates := CandidatesLoop(repo, intent, Take3(found.value));
    if candidates.Err? {
      return Err(candidates.error);
    }
    return Ok(BundleDict(intent, context, candidates.value));
  }

  /** The loop over the first three devices. */
  method CandidatesLoop(repo: Repo, intent: Dict, devices: seq<Device>) returns (r: Result<seq<Json>>)
    ensures r == Candidates(SeedActions, SeedSchemas, intent, devices)
  {
    var candidates := [];
    for i := 0 to |devices|
      invariant Candidates(SeedActions, SeedSchemas, intent, devices[..i]) == Ok(candidates)
    {
      assert devices[..i + 1][..i] == devices[..i];
      var c := CandidateLoopStep(repo, intent, devices[i]);
      if c.Err? {
        CandidatesErr(SeedActions, SeedSchemas, intent, devices, i + 1);
        return Err(c.error);
      }
      if c.value.Some? {
        candidates := candidates + [c.value.value];
      }
    }
    assert devices[..|devices|] == devices;
    return Ok(candidates);
  }

  /** One pass of the loop: map the intent to an action of the device and
      build its candidate. */
  method CandidateLoopStep(repo: Repo, intent: Dict, dev: Device) returns (r: Result<Option<Json>>)
    ensures r == CandidateFor(SeedActions, SeedSchemas, intent, dev)
  {
    var name := Find(intent, "intent");
    if name.None? {
      return Err(KeyError);
    }
    if !name.value.JStr? {
      return Err(AttributeError);
    }
    var action := repo.MapIntentToAction(dev, name.value.s);
    if action.None? {
      return Ok(None);
    }
    var raw := DictOf(Get(intent, "args", JDict([])));
    if raw.Err? {
      return Err(raw.error);
    }
    var args := NormalizeArgs(raw.value);
    var hint := repo.LoadSchemaHint(action.value.schemaHash);
    var clamped := Clamp(JDict(args), hint.value);
    if clamped.Err? {
      return Err(clamped.error);
    }
    return Ok(Some(CandidateJson(dev, action.value.id, action.value.name, hint.value, clamped.value)));
  }
}
