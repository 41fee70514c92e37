/** Post-processing of the decision model's output: unparseable output
    becomes a fixed reply, and an execute decision has its arguments clamped
    again with the first candidate's schema hint. */
module DecideAndReply {
  import opened PyValues
  import opened JsonIO

  const ExecuteMode := "EXECUTE_AND_REPLY"

  /** The reply used when the output holds no JSON object. */
  const ParseFailureReply: Dict := [("mode", JStr("REPLY")), ("text", JStr("I couldn’t parse that. Please rephrase."))]

  /** The first candidate's `schema_hint`, `{}` by default: the candidates
      are known to be truthy here. A dict has no key 0; a string's first
      character has no `get`; a number cannot be subscripted. */
  function FirstHint(candidates: Json): Result<Json>
    requires Truthy(candidates)
  {
    match candidates
    case JList(items) => GetAttr(items[0], "schema_hint", JDict([]))
    case JDict(_) => Err(KeyError)
    case JStr(_) => Err(AttributeError)
    case _ => Err(TypeError)
  }

  /** What `decide_and_reply` returns for the decoded output `data`. */
  function PostProcess(data: Option<Json>, bundle: Dict): (r: Result<Json>)
    ensures r.Ok? ==> r.value.JDict?
  {
    if data.None? || !Truthy(data.value) then Ok(JDict(ParseFailureReply))
    else
      match data.value
      case JDict(d) =>
        if Find(d, "mode") == Some(JStr(ExecuteMode)) && Truthy(Get(bundle, "candidates", JNull)) then
          Executed(d, Get(bundle, "candidates", JNull))
        else Ok(JDict(d))
      case _ => Err(AttributeError)
  }

  /** An execute decision's `args` clamped again with the first candidate's
      hint, which must be a dict. */
  function Executed(d: Dict, candidates: Json): (r: Result<Json>)
    requires Truthy(candidates)
    ensures r.Ok? ==> r.value.JDict?
  {
    match FirstHint(candidates)
    case Err(e) => Err(e)
    case Ok(JDict(hint)) =>
      (match Clamp(Get(d, "args", JDict([])), hint)
       case Err(e) => Err(e)
       case Ok(args) => Ok(JDict(Set(d, "args", args))))
    case Ok(_) => Err(AttributeError)
  }

  /** `decide_and_reply`: the prompt is the summary and the serialised
      bundle; `dumps`, the model call `chat` and the JSON decoder `decode`
      are parameters. */
  function Decide(bundle: Dict, summary: string, dumps: Dict -> string, chat: string -> string,
                  decode: string -> Option<Json>): (r: Result<Json>)
    ensures r.Ok? ==> r.value.JDict?
  {
    var user := "Summary:" + summary + "\nInput:\n" + dumps(bundle);
    PostProcess(ParseOneLineJson(chat(user), decode), bundle)
  }

  /** Output without a JSON object, or whose object is empty, gives the
      fixed reply. */
  lemma ParseFailure(data: Option<Json>, bundle: Dict)
    requires data.None? || data.value == JDict([])
    ensures PostProcess(data, bundle) == Ok(JDict(ParseFailureReply))
  {
  }

  /** Modes other than EXECUTE_AND_REPLY, and EXECUTE_AND_REPLY without
      candidates, come back as they were decoded. */
  lemma PassThrough(d: Dict, bundle: Dict)
    requires d != []
    requires Find(d, "mode") != Some(JStr(ExecuteMode)) || !Truthy(Get(bundle, "candidates", JNull))
    ensures PostProcess(Some(JDict(d)), bundle) == Ok(JDict(d))
  {
  }

  /** An execute decision with candidates goes to the execute branch. */
  lemma ExecuteDispatch(d: Dict, bundle: Dict)
    requires Find(d, "mode") == Some(JStr(ExecuteMode))
    requires Truthy(Get(bundle, "candidates", JNull))
    ensures PostProcess(Some(JDict(d)), bundle) == Executed(d, Get(bundle, "candidates", JNull))
  {
    assert d != [] by {
      assert HasKey(d, "mode");
    }
  }

  /** The execute branch of `PostProcess` for a given hint and clamped
      `args`. */
  lemma ExecuteBranch(d: Dict, bundle: Dict, hint: Dict, args: Json)
    requires Find(d, "mode") == Some(JStr(ExecuteMode))
    requires Truthy(Get(bundle, "candidates", JNull))
    requires FirstHint(Get(bundle, "candidates", JNull)) == Ok(JDict(hint))
    requires Clamp(Get(d, "args", JDict([])), hint) == Ok(args)
    ensures PostProcess(Some(JDict(d)), bundle) == Ok(JDict(Set(d, "args", args)))
  {
    ExecuteDispatch(d, bundle);
  }

  /** An execute decision with candidates whose first hint is a dict has
      its `args` replaced by the clamped `args` (or `{}`), and every other
      entry stays. */
  lemma ExecuteClamped(d: Dict, bundle: Dict, hint: Dict, k: string)
    requires Find(d, "mode") == Some(JStr(ExecuteMode))
    requires Truthy(Get(bundle, "candidates", JNull))
    requires FirstHint(Get(bundle, "candidates", JNull)) == Ok(JDict(hint))
    requires Clamp(Get(d, "args", JDict([])), hint).Ok?
    ensures var r := PostProcess(Some(JDict(d)), bundle);
      && r.Ok? && r.value.JDict?
      && Find(r.value.entries, "args") == Some(Clamp(Get(d, "args", JDict([])), hint).value)
      && (k != "args" ==> Find(r.value.entries, k) == Find(d, k))
  {
    var args := Clamp(Get(d, "args", JDict([])), hint).value;
    ExecuteBranch(d, bundle, hint, args);
    FindSet(d, "args", args, k);
    FindSet(d, "args", args, "args");
  }

  /** Post-processing is stable: feeding a result back in gives the same
      result, since clamping twice is clamping once. */
  lemma PostProcessStable(data: Option<Json>, bundle: Dict)
    requires PostProcess(data, bundle).Ok?
    ensures PostProcess(Some(PostProcess(data, bundle).value), bundle) == PostProcess(data, bundle)
  {
    if data.None? || !Truthy(data.value) {
      assert Find(ParseFailureReply, "mode") == Some(JStr("REPLY"));
      PassThrough(ParseFailureReply, bundle);
    } else {
      var d := data.value.entries;
      var c := Get(bundle, "candidates", JNull);
      if Find(d, "mode") == Some(JStr(ExecuteMode)) && Truthy(c) {
        ExecuteDispatch(d, bundle);
        var hint := FirstHint(c).value.entries;
        var args := Clamp(Get(d, "args", JDict([])), hint).value;
        ExecuteBranch(d, bundle, hint, args);
        var d' := Set(d, "args", args);
        FindSet(d, "args", args, "args");
        FindSet(d, "args", args, "mode");
        ClampIdempotent(Get(d, "args", JDict([])), hint);
        ExecuteBranch(d', bundle, hint, args);
        SetTwice(d, "args", args);
      } else {
        PassThrough(d, bundle);
      }
    }
  }
}
