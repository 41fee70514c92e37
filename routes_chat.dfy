/** The `/turn` chat route: persist the user message, classify it, build
    the bundle, then run at most two decision rounds, each of which may
    reply, fetch more candidates, execute a service call or be skipped.
    The classifier, the decision model's text and the serialiser are
    oracles; the Home Assistant answer is a parameter. */
module RoutesChat {
  import opened PyValues
  import opened Repository
  import opened Resolver
  import opened DecideAndReply
  import opened HaClient
  import opened JsonIO

  const MaxRounds := 2
  const FallbackText := "Sorry, I need more details."
  const NeedMoreText := "Need more info to proceed."

  /** The route's answer `{"reply": t}`. */
  function Reply(t: Json): Json {
    JDict([("reply", t)])
  }

  /** A service call to make: domain, service and payload. */
  type Request = (string, string, Dict)

  /** How a turn ends: the answer (or the exception that escapes), the
      number of decisions taken, the service call made, the assistant
      message persisted, and whether the summary is updated. */
  datatype Outcome = Outcome(reply: Result<Json>, rounds: nat, request: Option<Request>,
                             assistant: Option<Json>, summarized: bool)

  /** An exception escapes: nothing more is persisted. */
  function Fail(e: Error, rounds: nat, request: Option<Request>): Outcome {
    Outcome(Err(e), rounds, request, None, false)
  }

  /** A terminal reply: it is persisted and summarised. */
  function Said(t: Json, rounds: nat, request: Option<Request>): Outcome {
    Outcome(Ok(Reply(t)), rounds, request, Some(t), true)
  }

  /** Both rounds were spent: the fallback is persisted, not summarised. */
  const GaveUp := Outcome(Ok(Reply(JStr(FallbackText))), MaxRounds, None, Some(JStr(FallbackText)), false)

  /** The POST a request sends. */
  function PostsOf(o: Outcome): seq<Post> {
    if o.request.Some? then [Post(ServicePath(o.request.value.0, o.request.value.1), o.request.value.2)] else []
  }

  /** The decision engine: what `decide_and_reply` returns in round `i`
      for a bundle and a summary. */
  type Decider = (nat, Dict, string) -> Result<Json>

  /** What one decision leads to: the end of the turn, or another round
      with the (possibly extended) bundle. */
  datatype Step = Done(outcome: Outcome) | Again(bundle: Dict)

  function StepPosts(s: Step): seq<Post> {
    if s.Done? then PostsOf(s.outcome) else []
  }

  /** The stored assistant message is the answered reply, it is stored
      exactly when the summary is updated, and an error stores nothing. */
  predicate Settled(o: Outcome) {
    && (o.assistant.Some? ==> o.reply == Ok(Reply(o.assistant.value)))
    && (o.summarized <==> o.assistant.Some?)
    && (o.reply.Err? ==> o.assistant.None?)
  }

  /** FETCH_MORE: only `devices_for_area` is served. The area's devices are
      looked up first, then appended to `bundle["candidates"]`, which must
      be a list. */
  function FetchStep(d: Dict, bundle: Dict, rounds: nat): (s: Step)
    ensures s.Done? ==> s.outcome.rounds == rounds && s.outcome.request.None? && Settled(s.outcome)
  {
    if Get(d, "fetch", JNull) != JStr("devices_for_area") then
      Done(Outcome(Ok(Reply(JStr(NeedMoreText))), rounds, None, None, false))
    else FetchArea(GetAttr(Get(d, "params", JDict([])), "area", JNull), bundle, rounds)
  }

  /** The area named in the decision's `params` is looked up among the
      seeded devices. */
  function FetchArea(area: Result<Json>, bundle: Dict, rounds: nat): (s: Step)
    ensures s.Done? ==> s.outcome.rounds == rounds && s.outcome.request.None? && Settled(s.outcome)
  {
    match area
    case Err(e) => Done(Fail(e, rounds, None))
    case Ok(a) => Extend(bundle, AreaCandidates(SeedDevices, a), rounds)
  }

  /** The extra devices appended to the bundle's candidate list. */
  function Extend(bundle: Dict, extra: Result<seq<Json>>, rounds: nat): (s: Step)
    ensures s.Done? ==> s.outcome.rounds == rounds && s.outcome.request.None? && Settled(s.outcome)
  {
    match extra
    case Err(e) => Done(Fail(e, rounds, None))
    case Ok(more) =>
      match Find(bundle, "candidates")
      case None => Done(Fail(KeyError, rounds, None))
      case Some(JList(cs)) => Again(Set(bundle, "candidates", JList(cs + more)))
      case Some(_) => Done(Fail(AttributeError, rounds, None))
  }

  /** EXECUTE_AND_REPLY: `decision["args"]` is read once as a check, then
      device, action and args are read and the call is made; a failed POST
      (`answer` is its outcome) raises out of the turn after the request
      went out; `reply_text` is read only after the call. */
  function ExecuteStep(d: Dict, rounds: nat, answer: Result<Json>): (s: Step)
    ensures s.Done? && s.outcome.rounds == rounds && Settled(s.outcome)
  {
    if !HasKey(d, "args") || !HasKey(d, "device_id") || !HasKey(d, "action_id") then Done(Fail(KeyError, rounds, None))
    else
      match ExecuteRequest(Get(d, "device_id", JNull), Get(d, "action_id", JNull), Get(d, "args", JNull))
      case Err(e) => Done(Fail(e, rounds, None))
      case Ok(q) =>
        if answer.Err? then Done(Fail(answer.error, rounds, Some(q)))
        else
          match Find(d, "reply_text")
          case None => Done(Fail(KeyError, rounds, Some(q)))
          case Some(t) => Done(Said(t, rounds, Some(q)))
  }

  /** One decision, the `rounds`-th of the turn. A mode other than the
      three recognised ones spends the round. */
  function StepOf(decision: Json, bundle: Dict, rounds: nat, answer: Result<Json>): (s: Step)
    ensures s.Done? ==> s.outcome.rounds == rounds && Settled(s.outcome)
  {
    match decision
    case JDict(d) =>
      var mode := Get(d, "mode", JNull);
      if mode == JStr("REPLY") then
        (match Find(d, "text")
         case None => Done(Fail(KeyError, rounds, None))
         case Some(t) => Done(Said(t, rounds, None)))
      else if mode == JStr("FETCH_MORE") then FetchStep(d, bundle, rounds)
      else if mode == JStr(ExecuteMode) then ExecuteStep(d, rounds, answer)
      else Again(bundle)
    case _ => Done(Fail(AttributeError, rounds, None))
  }

  /** The decision loop from round `round` on. */
  function Rounds(bundle: Dict, summary: string, decide: Decider, round: nat, answer: Result<Json>): (o: Outcome)
    requires round <= MaxRounds
    ensures round <= o.rounds <= MaxRounds
    ensures Settled(o) || o == GaveUp
    ensures o.request.Some? ==> o.rounds > round
    decreases MaxRounds - round
  {
    if round == MaxRounds then GaveUp
    else
      match RoundOf(bundle, summary, decide, round, answer)
      case Done(o) => o
      case Again(b) => Rounds(b, summary, decide, round + 1, answer)
  }

  /** Round `round`: the decision, or the exception it raises, performed. */
  function RoundOf(bundle: Dict, summary: string, decide: Decider, round: nat, answer: Result<Json>): (s: Step)
    ensures s.Done? ==> s.outcome.rounds == round + 1 && Settled(s.outcome)
  {
    match decide(round, bundle, summary)
    case Err(e) => Done(Fail(e, round + 1, None))
    case Ok(decision) => StepOf(decision, bundle, round + 1, answer)
  }

  /** The whole turn after the user message is stored, for the
      classifier's answer `classified`. */
  function Turn(classified: Json, context: Dict, summary: string, decide: Decider, answer: Result<Json>): (o: Outcome)
    ensures o.rounds <= MaxRounds
    ensures Settled(o) || o == GaveUp
    ensures o.request.Some? ==> o.rounds > 0
  {
    match Subscript(classified, "mode")
    case Err(e) => Fail(e, 0, None)
    case Ok(mode) =>
      if mode == JStr("reply") then
        (match Subscript(classified, "text")
         case Err(e) => Fail(e, 0, None)
         case Ok(t) => Said(t, 0, None))
      else
        match Subscript(classified, "intent")
        case Err(e) => Fail(e, 0, None)
        case Ok(JDict(intent)) =>
          (match Bundle(SeedDevices, SeedActions, SeedSchemas, intent, context)
           case Err(e) => Fail(e, 0, None)
           case Ok(bundle) => Rounds(bundle, summary, decide, 0, answer))
        case Ok(_) => Fail(AttributeError, 0, None)
  }

  /** The assistant message a turn stores. */
  function AssistantMessages(o: Outcome, chatId: string, now: int): seq<Message> {
    if o.assistant.Some? then [Message(chatId, "assistant", o.assistant.value, now)] else []
  }

  /** The sessions after a turn. */
  function SessionsAfter(o: Outcome, sessions: map<string, Session>, chatId: string, message: string, now: int): map<string, Session> {
    if o.summarized && o.assistant.Some? then WithSummary(sessions, chatId, message, o.assistant.value, now) else sessions
  }

  /** The decision engine the route calls: `decide_and_reply` with the
      decision model `chat(i)` in round `i`. */
  function Engine(dumps: Dict -> string, chat: nat -> string -> string, decode: string -> Option<Json>): Decider {
    (i: nat, bundle: Dict, summary: string) => Decide(bundle, summary, dumps, chat(i), decode)
  }

  // ----------------------------------------------------------------------
  // Unfolding one round
  // ----------------------------------------------------------------------

  /** A round whose decision ends the turn. */
  lemma RoundEnds(bundle: Dict, summary: string, decide: Decider, round: nat, o: Outcome, answer: Result<Json>)
    requires round < MaxRounds
    requires decide(round, bundle, summary).Ok?
    requires StepOf(decide(round, bundle, summary).value, bundle, round + 1, answer) == Done(o)
    ensures Rounds(bundle, summary, decide, round, answer) == o
  {
  }

  /** The loop from round `round` is that round's step, then the rest. */
  lemma RoundsUnfold(bundle: Dict, summary: string, decide: Decider, round: nat, s: Step, answer: Result<Json>)
    requires round < MaxRounds && s == RoundOf(bundle, summary, decide, round, answer)
    ensures s.Done? ==> Rounds(bundle, summary, decide, round, answer) == s.outcome
    ensures s.Again? ==> Rounds(bundle, summary, decide, round, answer) == Rounds(s.bundle, summary, decide, round + 1, answer)
  {
  }

  /** No round is left. */
  lemma NoRoundLeft(bundle: Dict, summary: string, decide: Decider, answer: Result<Json>)
    ensures Rounds(bundle, summary, decide, MaxRounds, answer) == GaveUp
  {
  }

  /** A round whose decision goes on to the next round. */
  lemma RoundGoesOn(bundle: Dict, summary: string, decide: Decider, round: nat, b: Dict, answer: Result<Json>)
    requires round < MaxRounds
    requires decide(round, bundle, summary).Ok?
    requires StepOf(decide(round, bundle, summary).value, bundle, round + 1, answer) == Again(b)
    ensures Rounds(bundle, summary, decide, round, answer) == Rounds(b, summary, decide, round + 1, answer)
  {
  }

  /** The three recognised modes dispatch to their branch. */
  lemma StepModes(d: Dict, bundle: Dict, rounds: nat, answer: Result<Json>)
    ensures Find(d, "mode") == Some(JStr("FETCH_MORE")) ==> StepOf(JDict(d), bundle, rounds, answer) == FetchStep(d, bundle, rounds)
    ensures Find(d, "mode") == Some(JStr(ExecuteMode)) ==> StepOf(JDict(d), bundle, rounds, answer) == ExecuteStep(d, rounds, answer)
  {
    var mode := Get(d, "mode", JNull);
    if Find(d, "mode") == Some(JStr("FETCH_MORE")) {
      assert mode == JStr("FETCH_MORE");
      assert |"FETCH_MORE"| != |"REPLY"|;
    }
    if Find(d, "mode") == Some(JStr(ExecuteMode)) {
      assert mode == JStr(ExecuteMode);
      assert |ExecuteMode| != |"REPLY"| && |ExecuteMode| != |"FETCH_MORE"|;
    }
  }

  // ----------------------------------------------------------------------
  // Properties of the turn
  // ----------------------------------------------------------------------

  /** With `decide_and_reply` as the engine, output without a JSON object
      ends the round with the parse-failure text, stored and summarised. */
  lemma UnparseableReplies(bundle: Dict, summary: string, dumps: Dict -> string, chat: nat -> string -> string,
                           decode: string -> Option<Json>, round: nat, answer: Result<Json>)
    requires round < MaxRounds
    requires ParseOneLineJson(chat(round)("Summary:" + summary + "\nInput:\n" + dumps(bundle)), decode).None?
    ensures var t := Get(ParseFailureReply, "text", JNull);
      Rounds(bundle, summary, Engine(dumps, chat, decode), round, answer) == Outcome(Ok(Reply(t)), round + 1, None, Some(t), true)
  {
    var decide := Engine(dumps, chat, decode);
    var data := ParseOneLineJson(chat(round)("Summary:" + summary + "\nInput:\n" + dumps(bundle)), decode);
    ParseFailure(data, bundle);
    assert decide(round, bundle, summary) == PostProcess(data, bundle);
    var t := Get(ParseFailureReply, "text", JNull);
    assert Find(ParseFailureReply, "mode") == Some(JStr("REPLY"));
    assert Find(ParseFailureReply, "text") == Some(t);
    ReplyEnds(bundle, summary, decide, round, ParseFailureReply, t, answer);
  }

  /** A classifier reply is answered with its text after no decision at
      all; it is stored and summarised. */
  lemma ClassifierReply(classified: Json, context: Dict, summary: string, decide: Decider, t: Json, answer: Result<Json>)
    requires Subscript(classified, "mode") == Ok(JStr("reply")) && Subscript(classified, "text") == Ok(t)
    ensures Turn(classified, context, summary, decide, answer) == Outcome(Ok(Reply(t)), 0, None, Some(t), true)
  {
  }

  /** A REPLY decision ends the turn with its text, with no service call. */
  lemma ReplyEnds(bundle: Dict, summary: string, decide: Decider, round: nat, d: Dict, t: Json, answer: Result<Json>)
    requires round < MaxRounds
    requires decide(round, bundle, summary) == Ok(JDict(d))
    requires Find(d, "mode") == Some(JStr("REPLY")) && Find(d, "text") == Some(t)
    ensures Rounds(bundle, summary, decide, round, answer) == Outcome(Ok(Reply(t)), round + 1, None, Some(t), true)
  {
  }

  /** An EXECUTE_AND_REPLY decision makes exactly the service call its
      device, action and args lead to, then ends the turn with its
      `reply_text`. */
  lemma ExecuteEnds(bundle: Dict, summary: string, decide: Decider, round: nat, d: Dict, q: Request, t: Json, answer: Result<Json>)
    requires round < MaxRounds
    requires decide(round, bundle, summary) == Ok(JDict(d))
    requires Find(d, "mode") == Some(JStr(ExecuteMode))
    requires HasKey(d, "args") && HasKey(d, "device_id") && HasKey(d, "action_id")
    requires ExecuteRequest(Get(d, "device_id", JNull), Get(d, "action_id", JNull), Get(d, "args", JNull)) == Ok(q)
    requires Find(d, "reply_text") == Some(t)
    requires answer.Ok?
    ensures var o := Rounds(bundle, summary, decide, round, answer);
      o == Outcome(Ok(Reply(t)), round + 1, Some(q), Some(t), true) && PostsOf(o) == [Post(ServicePath(q.0, q.1), q.2)]
  {
    StepModes(d, bundle, round + 1, answer);
    assert ExecuteStep(d, round + 1, answer) == Done(Said(t, round + 1, Some(q)));
    RoundEnds(bundle, summary, decide, round, Said(t, round + 1, Some(q)), answer);
  }

  /** An EXECUTE_AND_REPLY decision whose service call fails still made
      that call, and the failure ends the turn before `reply_text` is
      read. */
  lemma ExecuteFailsAfterPost(bundle: Dict, summary: string, decide: Decider, round: nat, d: Dict, q: Request, answer: Result<Json>)
    requires round < MaxRounds
    requires decide(round, bundle, summary) == Ok(JDict(d))
    requires Find(d, "mode") == Some(JStr(ExecuteMode))
    requires HasKey(d, "args") && HasKey(d, "device_id") && HasKey(d, "action_id")
    requires ExecuteRequest(Get(d, "device_id", JNull), Get(d, "action_id", JNull), Get(d, "args", JNull)) == Ok(q)
    requires answer.Err?
    ensures var o := Rounds(bundle, summary, decide, round, answer);
      o == Fail(answer.error, round + 1, Some(q)) && PostsOf(o) == [Post(ServicePath(q.0, q.1), q.2)]
  {
    StepModes(d, bundle, round + 1, answer);
    assert ExecuteStep(d, round + 1, answer) == Done(Fail(answer.error, round + 1, Some(q)));
    RoundEnds(bundle, summary, decide, round, Fail(answer.error, round + 1, Some(q)), answer);
  }

  /** A `devices_for_area` fetch appends the area's devices to the
      candidates and goes on with the next round. */
  lemma FetchGoesOn(bundle: Dict, summary: string, decide: Decider, round: nat, d: Dict, cs: seq<Json>, extra: seq<Json>, answer: Result<Json>)
    requires round < MaxRounds
    requires decide(round, bundle, summary) == Ok(JDict(d))
    requires Find(d, "mode") == Some(JStr("FETCH_MORE")) && Find(d, "fetch") == Some(JStr("devices_for_area"))
    requires GetAttr(Get(d, "params", JDict([])), "area", JNull).Ok?
    requires AreaCandidates(SeedDevices, GetAttr(Get(d, "params", JDict([])), "area", JNull).value) == Ok(extra)
    requires Find(bundle, "candidates") == Some(JList(cs))
    ensures Rounds(bundle, summary, decide, round, answer) ==
            Rounds(Set(bundle, "candidates", JList(cs + extra)), summary, decide, round + 1, answer)
  {
    StepModes(d, bundle, round + 1, answer);
    FetchAppends(d, bundle, round + 1, cs, extra);
    RoundGoesOn(bundle, summary, decide, round, Set(bundle, "candidates", JList(cs + extra)), answer);
  }

  lemma FetchAppends(d: Dict, bundle: Dict, rounds: nat, cs: seq<Json>, extra: seq<Json>)
    requires Find(d, "fetch") == Some(JStr("devices_for_area"))
    requires GetAttr(Get(d, "params", JDict([])), "area", JNull).Ok?
    requires AreaCandidates(SeedDevices, GetAttr(Get(d, "params", JDict([])), "area", JNull).value) == Ok(extra)
    requires Find(bundle, "candidates") == Some(JList(cs))
    ensures FetchStep(d, bundle, rounds) == Again(Set(bundle, "candidates", JList(cs + extra)))
  {
    var area := GetAttr(Get(d, "params", JDict([])), "area", JNull);
    FetchDispatch(d, bundle, rounds);
    FetchLooksUp(area.value, bundle, rounds);
    ExtendAppends(bundle, rounds, cs, extra);
  }

  lemma FetchDispatch(d: Dict, bundle: Dict, rounds: nat)
    requires Find(d, "fetch") == Some(JStr("devices_for_area"))
    ensures FetchStep(d, bundle, rounds) == FetchArea(GetAttr(Get(d, "params", JDict([])), "area", JNull), bundle, rounds)
  {
  }

  lemma FetchLooksUp(a: Json, bundle: Dict, rounds: nat)
    ensures FetchArea(Ok(a), bundle, rounds) == Extend(bundle, AreaCandidates(SeedDevices, a), rounds)
  {
  }

  lemma ExtendAppends(bundle: Dict, rounds: nat, cs: seq<Json>, extra: seq<Json>)
    requires Find(bundle, "candidates") == Some(JList(cs))
    ensures Extend(bundle, Ok(extra), rounds) == Again(Set(bundle, "candidates", JList(cs + extra)))
  {
  }

  /** Any other fetch kind ends the turn at once; nothing is stored. */
  lemma OtherFetchEnds(bundle: Dict, summary: string, decide: Decider, round: nat, d: Dict, answer: Result<Json>)
    requires round < MaxRounds
    requires decide(round, bundle, summary) == Ok(JDict(d))
    requires Find(d, "mode") == Some(JStr("FETCH_MORE")) && Find(d, "fetch") != Some(JStr("devices_for_area"))
    ensures Rounds(bundle, summary, decide, round, answer) == Outcome(Ok(Reply(JStr(NeedMoreText))), round + 1, None, None, false)
  {
    StepModes(d, bundle, round + 1, answer);
    RoundEnds(bundle, summary, decide, round, Outcome(Ok(Reply(JStr(NeedMoreText))), round + 1, None, None, false), answer);
  }

  /** A decision of another mode spends its round and leaves the bundle as
      it was. */
  predicate Skipped(decision: Result<Json>) {
    && decision.Ok? && decision.value.JDict?
    && var mode := Get(decision.value.entries, "mode", JNull);
    mode != JStr("REPLY") && mode != JStr("FETCH_MORE") && mode != JStr(ExecuteMode)
  }

  /** Two skipped decisions give the fallback reply: it is stored but the
      summary is not updated, and no call is made. */
  lemma TwoSkippedGiveUp(bundle: Dict, summary: string, decide: Decider, answer: Result<Json>)
    requires Skipped(decide(0, bundle, summary)) && Skipped(decide(1, bundle, summary))
    ensures Rounds(bundle, summary, decide, 0, answer) == GaveUp
    ensures !GaveUp.summarized && GaveUp.assistant == Some(JStr(FallbackText)) && PostsOf(GaveUp) == []
  {
    assert Rounds(bundle, summary, decide, 0, answer) == Rounds(bundle, summary, decide, 1, answer);
  }

  /** A turn for a chat without a session leaves the sessions as they are:
      the route never creates one, so the summary of such a chat stays
      empty. */
  lemma NoSessionNoSummary(o: Outcome, sessions: map<string, Session>, chatId: string, message: string, now: int)
    requires chatId !in sessions
    ensures SessionsAfter(o, sessions, chatId, message, now) == sessions
  {
  }

  // ----------------------------------------------------------------------
  // The route
  // ----------------------------------------------------------------------

  /** One decision, performed: the fetch reads the seeded devices, the
      execute records its POST on `ha`. */
  method Round(repo: Repo, ha: Client, decision: Json, bundle: Dict, rounds: nat, answer: Result<Json>) returns (s: Step)
    modifies ha`posts
    ensures s == StepOf(decision, bundle, rounds, answer)
    ensures ha.posts == old(ha.posts) + StepPosts(s)
  {
    if !decision.JDict? {
      return Done(Fail(AttributeError, rounds, None));
    }
    var d := decision.entries;
    var mode := Get(d, "mode", JNull);
    if mode == JStr("REPLY") {
      var t := Find(d, "text");
      if t.None? {
        return Done(Fail(KeyError, rounds, None));
      }
      return Done(Said(t.value, rounds, None));
    }
    if mode == JStr("FETCH_MORE") {
      s := Fetch(repo, d, bundle, rounds);
      return;
    }
    if mode == JStr(ExecuteMode) {
      s := Execute(ha, d, rounds, answer);
      return;
    }
    return Again(bundle);
  }

  /** The FETCH_MORE branch. */
  method Fetch(repo: Repo, d: Dict, bundle: Dict, rounds: nat) returns (s: Step)
    ensures s == FetchStep(d, bundle, rounds)
  {
    if Get(d, "fetch", JNull) != JStr("devices_for_area") {
      return Done(Outcome(Ok(Reply(JStr(NeedMoreText))), rounds, None, None, false));
    }
    var area := GetAttr(Get(d, "params", JDict([])), "area", JNull);
    if area.Err? {
      return Done(Fail(area.error, rounds, None));
    }
    var extra := repo.DevicesForArea(area.value);
    s := ExtendCandidates(bundle, extra, rounds);
  }

  /** The list `bundle["candidates"]` extended in place. */
  method ExtendCandidates(bundle: Dict, extra: Result<seq<Json>>, rounds: nat) returns (s: Step)
    ensures s == Extend(bundle, extra, rounds)
  {
    if extra.Err? {
      return Done(Fail(extra.error, rounds, None));
    }
    var candidates := Find(bundle, "candidates");
    if candidates.None? {
      return Done(Fail(KeyError, rounds, None));
    }
    if !candidates.value.JList? {
      return Done(Fail(AttributeError, rounds, None));
    }
    return Again(Set(bundle, "candidates", JList(candidates.value.items + extra.value)));
  }

  /** The EXECUTE_AND_REPLY branch. */
  method Execute(ha: Client, d: Dict, rounds: nat, answer: Result<Json>) returns (s: Step)
    modifies ha`posts
    ensures s == ExecuteStep(d, rounds, answer)
    ensures ha.posts == old(ha.posts) + StepPosts(s)
  {
    if !HasKey(d, "args") || !HasKey(d, "device_id") || !HasKey(d, "action_id") {
      return Done(Fail(KeyError, rounds, None));
    }
    var deviceId, actionId, args := Get(d, "device_id", JNull), Get(d, "action_id", JNull), Get(d, "args", JNull);
    var q := ExecuteRequest(deviceId, actionId, args);
    var result := ha.Execute(deviceId, actionId, args, answer);
    if q.Err? {
      return Done(Fail(q.error, rounds, None));
    }
    if result.Err? {
      return Done(Fail(result.error, rounds, Some(q.value)));
    }
    var t := Find(d, "reply_text");
    if t.None? {
      return Done(Fail(KeyError, rounds, Some(q.value)));
    }
    return Done(Said(t.value, rounds, Some(q.value)));
  }

  /** One pass of the loop body: the decision of round `round`, performed. */
  method RoundStep(repo: Repo, ha: Client, bundle: Dict, summary: string, decide: Decider, round: nat, answer: Result<Json>)
    returns (s: Step)
    requires round < MaxRounds
    modifies ha`posts
    ensures s.Done? ==> Rounds(bundle, summary, decide, round, answer) == s.outcome
    ensures s.Again? ==> Rounds(bundle, summary, decide, round, answer) == Rounds(s.bundle, summary, decide, round + 1, answer)
    ensures ha.posts == old(ha.posts) + StepPosts(s)
  {
    var decision := decide(round, bundle, summary);
    if decision.Err? {
      s := Done(Fail(decision.error, round + 1, None));
      assert StepPosts(s) == [];
      RoundsUnfold(bundle, summary, decide, round, s, answer);
      return;
    }
    s := Round(repo, ha, decision.value, bundle, round + 1, answer);
    RoundsUnfold(bundle, summary, decide, round, s, answer);
  }

  /** `for _ in range(2)`: the decision loop with its fallback. */
  method DecisionLoop(repo: Repo, ha: Client, bundle0: Dict, summary: string, decide: Decider, answer: Result<Json>)
    returns (o: Outcome)
    modifies ha`posts
    ensures o == Rounds(bundle0, summary, decide, 0, answer)
    ensures ha.posts == old(ha.posts) + PostsOf(o)
  {
    var bundle := bundle0;
    var round: nat := 0;
    ghost var target := Rounds(bundle, summary, decide, round, answer);
    ghost var posts0 := ha.posts;
    while round < MaxRounds
      invariant round <= MaxRounds
      invariant Rounds(bundle, summary, decide, round, answer) == target
      invariant ha.posts == posts0
      decreases MaxRounds - round
    {
      var s := RoundStep(repo, ha, bundle, summary, decide, round, answer);
      if s.Done? {
        assert ha.posts == posts0 + PostsOf(s.outcome);
        return s.outcome;
      }
      bundle := s.bundle;
      round := round + 1;
    }
    NoRoundLeft(bundle, summary, decide, answer);
    o := GaveUp;
    assert PostsOf(o) == [];
  }

  /** Classification, bundle and decisions, after the user message is
      stored. */
  method Classified(repo: Repo, ha: Client, classified: Json, context: Dict, summary: string, decide: Decider,
                    answer: Result<Json>) returns (o: Outcome)
    modifies ha`posts
    ensures o == Turn(classified, context, summary, decide, answer)
    ensures ha.posts == old(ha.posts) + PostsOf(o)
  {
    var mode := Subscript(classified, "mode");
    if mode.Err? {
      return Fail(mode.error, 0, None);
    }
    if mode.value == JStr("reply") {
      var t := Subscript(classified, "text");
      if t.Err? {
        return Fail(t.error, 0, None);
      }
      return Said(t.value, 0, None);
    }
    var intent := Subscript(classified, "intent");
    if intent.Err? {
      return Fail(intent.error, 0, None);
    }
    if !intent.value.JDict? {
      return Fail(AttributeError, 0, None);
    }
    var bundle := BuildBundle(repo, intent.value.entries, context);
    if bundle.Err? {
      return Fail(bundle.error, 0, None);
    }
    o := DecisionLoop(repo, ha, bundle.value, summary, decide, answer);
  }

  /** The reply stored, and summarised, as the outcome says. */
  method Persist(repo: Repo, chatId: string, message: string, o: Outcome, now: int)
    requires repo.Valid()
    modifies repo`messages, repo`sessions
    ensures repo.Valid()
    ensures o.assistant.None? ==> repo.messages == old(repo.messages)
    ensures o.assistant.Some? ==>
      repo.messages == old(repo.messages)[chatId := old(repo.MessagesOf(chatId)) + AssistantMessages(o, chatId, now)]
    ensures repo.sessions == SessionsAfter(o, old(repo.sessions), chatId, message, now)
  {
    if o.assistant.Some? {
      repo.AddMessage(chatId, "assistant", o.assistant.value, now);
      if o.summarized {
        repo.UpdateSummary(chatId, message, o.assistant.value, now);
      }
    }
  }

  /** `chat_turn`. The Home Assistant client is built first, so a missing
      token fails before anything is stored; the user message is stored
      before classification; the reply is stored, and summarised, as the
      turn's outcome says. `classify` is the intent classifier,
      `decide` the decision engine, `answer` the Home Assistant answer to
      the service call, and `now` the clock. */
  method ChatTurn(repo: Repo, env: map<string, string>, chatId: string, message: string, context: Dict,
                  classify: (string, Dict, string) -> Json, decide: Decider, answer: Result<Json>, now: int)
    returns (r: Result<Json>, posts: seq<Post>)
    requires repo.Valid()
    modifies repo`messages, repo`sessions
    ensures repo.Valid()
    ensures ("HA_TOKEN" !in env || env["HA_TOKEN"] == "") ==>
      r == Err(RuntimeError) && posts == [] && repo.messages == old(repo.messages) && repo.sessions == old(repo.sessions)
    ensures ("HA_TOKEN" in env && env["HA_TOKEN"] != "") ==>
      var summary := old(repo.LoadSummary(chatId));
      var o := Turn(classify(message, context, summary), context, summary, decide, answer);
      && r == o.reply
      && posts == PostsOf(o) && |posts| <= 1
      && repo.messages == old(repo.messages)[chatId := old(repo.MessagesOf(chatId)) +
           [Message(chatId, "user", JStr(message), now)] + AssistantMessages(o, chatId, now)]
      && repo.sessions == SessionsAfter(o, old(repo.sessions), chatId, message, now)
  {
    var client := Connect(env);
    if client.Err? {
      return Err(client.error), [];
    }
    var ha := client.value;
    r := Serve(repo, ha, chatId, message, context, classify, decide, answer, now);
    posts := ha.posts;
  }

  /** Classification, decisions and persistence of the reply. */
  method Respond(repo: Repo, ha: Client, chatId: string, message: string, context: Dict, classified: Json,
                 summary: string, decide: Decider, answer: Result<Json>, now: int) returns (o: Outcome)
    requires repo.Valid()
    modifies repo`messages, repo`sessions, ha`posts
    ensures repo.Valid()
    ensures o == Turn(classified, context, summary, decide, answer)
    ensures ha.posts == old(ha.posts) + PostsOf(o)
    ensures o.assistant.None? ==> repo.messages == old(repo.messages)
    ensures o.assistant.Some? ==>
      repo.messages == old(repo.messages)[chatId := old(repo.MessagesOf(chatId)) + AssistantMessages(o, chatId, now)]
    ensures repo.sessions == SessionsAfter(o, old(repo.sessions), chatId, message, now)
  {
    o := Classified(repo, ha, classified, context, summary, decide, answer);
    Persist(repo, chatId, message, o, now);
  }

  lemma UpdateTwice<K, V>(m: map<K, V>, k: K, a: V, b: V)
    ensures m[k := a][k := b] == m[k := b]
  {
  }

  /** The turn once the client exists. */
  method Serve(repo: Repo, ha: Client, chatId: string, message: string, context: Dict,
               classify: (string, Dict, string) -> Json, decide: Decider, answer: Result<Json>, now: int)
    returns (r: Result<Json>)
    requires repo.Valid() && ha.posts == []
    modifies repo`messages, repo`sessions, ha`posts
    ensures repo.Valid()
    ensures var summary := old(repo.LoadSummary(chatId));
      var o := Turn(classify(message, context, summary), context, summary, decide, answer);
      && r == o.reply
      && ha.posts == PostsOf(o)
      && repo.messages == old(repo.messages)[chatId := old(repo.MessagesOf(chatId)) +
           [Message(chatId, "user", JStr(message), now)] + AssistantMessages(o, chatId, now)]
      && repo.sessions == SessionsAfter(o, old(repo.sessions), chatId, message, now)
  {
    ghost var msgs0, mine0 := repo.messages, repo.MessagesOf(chatId);
    var user := Message(chatId, "user", JStr(message), now);
    repo.AddMessage(chatId, "user", JStr(message), now);
    ghost var mine1 := mine0 + [user];
    assert repo.messages == msgs0[chatId := mine1];
    assert repo.MessagesOf(chatId) == mine1;
    var summary := repo.LoadSummary(chatId);
    assert summary == old(repo.LoadSummary(chatId));
    var o := Respond(repo, ha, chatId, message, context, classify(message, context, summary), summary, decide, answer, now);
    if o.assistant.None? {
      assert mine1 + AssistantMessages(o, chatId, now) == mine1;
    } else {
      UpdateTwice(msgs0, chatId, mine1, mine1 + AssistantMessages(o, chatId, now));
    }
    return o.reply;
  }
}
