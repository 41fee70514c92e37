/** Input cleaning before the intent model is called: bidirectional
    control characters are removed from the message and the context. */
module IntentExtractor {
  import opened PyValues
  import opened Text

  /** U+200E, U+200F, U+202A to U+202E and U+2066 to U+2069. */
  predicate IsBidiControl(c: char) {
    || c == '\U{200E}' || c == '\U{200F}'
    || ('\U{202A}' <= c <= '\U{202E}')
    || ('\U{2066}' <= c <= '\U{2069}')
  }

  /** `_clean` */
  function Clean(s: string): (r: string)
    ensures |r| <= |s|
    ensures forall c :: c in r ==> c in s && !IsBidiControl(c)
    ensures forall c :: c in s && !IsBidiControl(c) ==> c in r
  {
    if s == [] then []
    else
      var rest := Clean(s[1..]);
      if IsBidiControl(s[0]) then rest else [s[0]] + rest
  }

  /** Cleaning works character by character, so the characters that are kept
      stay in their original order. */
  lemma {:induction false} CleanConcat(a: string, b: string)
    ensures Clean(a + b) == Clean(a) + Clean(b)
  {
    if a == [] {
      assert a + b == b;
    } else {
      var t := a[1..];
      ConsAppend(a, b);
      CleanConcat(t, b);
      CleanCons(a[0], t + b);
      CleanCons(a[0], t);
      AppendAssoc(if IsBidiControl(a[0]) then [] else [a[0]], Clean(t), Clean(b));
    }
  }

  /** A non-empty text is its first character and the rest. */
  lemma ConsAppend(a: string, b: string)
    requires a != []
    ensures a == [a[0]] + a[1..] && a + b == [a[0]] + (a[1..] + b)
  {
  }

  /** Concatenation is associative. */
  lemma AppendAssoc(x: string, y: string, z: string)
    ensures x + (y + z) == (x + y) + z
  {
  }

  /** One character in front: kept unless it is a bidirectional control. */
  lemma CleanCons(c: char, s: string)
    ensures Clean([c] + s) == (if IsBidiControl(c) then [] else [c]) + Clean(s)
  {
    assert ([c] + s)[1..] == s;
  }

  lemma CleanChar(c: char)
    ensures Clean([c]) == if IsBidiControl(c) then [] else [c]
  {
  }

  /** Cleaning twice is cleaning once. */
  lemma {:induction false} CleanIdempotent(s: string)
    ensures Clean(Clean(s)) == Clean(s)
  {
    if s != [] {
      CleanIdempotent(s[1..]);
      if !IsBidiControl(s[0]) {
        CleanConcat([s[0]], Clean(s[1..]));
      }
    }
  }

  /** A string without control characters is left alone. */
  lemma {:induction false} CleanKeepsPlain(s: string)
    requires forall c :: c in s ==> !IsBidiControl(c)
    ensures Clean(s) == s
  {
    if s != [] {
      assert s[0] in s;
      assert forall c :: c in s[1..] ==> c in s;
      CleanKeepsPlain(s[1..]);
    }
  }

  /** The user turn sent to the intent model: the compact serialisation of the
      context and the message, both cleaned. */
  function UserPrompt(message: string, contextText: string): (r: string)
    ensures forall c :: c in r ==> !IsBidiControl(c)
  {
    var ctx := Clean(contextText);
    var msg := Clean(message);
    assert forall c :: c in "Context:" + ctx + "\nUser:" + msg ==> c in "Context:" || c in ctx || c in "\nUser:" || c in msg;
    "Context:" + ctx + "\nUser:" + msg
  }

  /** `extract_intents`: the stripped raw reply of the model. `dumps` is the
      compact JSON serialisation and `chat` the model call. */
  function ExtractIntents(message: string, context: Dict, dumps: Dict -> string,
                          chat: string -> string): string
  {
    Strip(chat(UserPrompt(message, dumps(context))))
  }

  /** The reply is handed on trimmed: no leading or trailing whitespace,
      and no longer than what the model said. */
  lemma ExtractIntentsTrimmed(message: string, context: Dict, dumps: Dict -> string, chat: string -> string)
    ensures var out := chat(UserPrompt(message, dumps(context)));
      var r := ExtractIntents(message, context, dumps, chat);
      && |r| <= |out|
      && (r == [] || (!IsSpace(r[0]) && !IsSpace(r[|r| - 1])))
  {
    var out := chat(UserPrompt(message, dumps(context)));
    var l := LStrip(out);
    var r := RStrip(l);
    if r != [] {
      assert r[0] == l[0];
    }
  }
}
