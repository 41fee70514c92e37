/** One-line JSON extraction from model output, and clamping of a proposed
    `value` argument into the `"lo-hi"` range of a schema hint. */
module JsonIO {
  import opened PyValues
  import opened Text

  // ----------------------------------------------------------------------
  // parse_one_line_json
  // ----------------------------------------------------------------------

  /** Index of the last occurrence of `c` in `s`. */
  function LastIndexOf(s: string, c: char): (r: Option<nat>)
    ensures r.None? <==> c !in s
    ensures r.Some? ==> r.value < |s| && s[r.value] == c && c !in s[r.value + 1..]
  {
    if s == [] then None
    else if s[|s| - 1] == c then Some(|s| - 1)
    else
      var init := s[..|s| - 1];
      assert forall x :: x in init ==> x in s;
      match LastIndexOf(init, c)
      case None =>
        assert s == init + [s[|s| - 1]];
        None
      case Some(i) =>
        assert s[i + 1..] == init[i + 1..] + [s[|s| - 1]];
        Some(i)
  }

  /** What the greedy, dot-all pattern `\{.*\}` matches in `t`: from the first
      `{` to the last `}`, provided that `}` comes after that `{`. */
  function BraceSpan(t: string): (r: Option<string>)
    ensures r.Some? ==> |r.value| >= 2 && r.value[0] == '{' && r.value[|r.value| - 1] == '}'
    ensures '{' !in t || '}' !in t ==> r.None?
  {
    match IndexOf(t, '{')
    case None => None
    case Some(i) =>
      match LastIndexOf(t, '}')
      case None => None
      case Some(j) => if j <= i then None else Some(t[i..j + 1])
  }

  /** A match is the text between a prefix without `{` and a suffix
      without `}`, and starts with `{` and ends with `}`. */
  lemma BraceSpanFound(t: string)
    requires BraceSpan(t).Some?
    ensures var span := BraceSpan(t).value;
      && |span| >= 2 && span[0] == '{' && span[|span| - 1] == '}'
      && exists p, q :: t == p + span + q && '{' !in p && '}' !in q
  {
    var i := IndexOf(t, '{').value;
    var j := LastIndexOf(t, '}').value;
    var span := t[i..j + 1];
    var p, q := t[..i], t[j + 1..];
    ThreeParts(t, i, j + 1);
    assert '{' !in p && '}' !in q;
    assert span[0] == '{' && span[|span| - 1] == '}';
  }

  lemma ThreeParts(t: string, i: nat, j: nat)
    requires i <= j <= |t|
    ensures t == t[..i] + t[i..j] + t[j..]
  {
  }

  /** There is no match exactly when no `}` follows a `{`. */
  lemma BraceSpanMissing(t: string)
    ensures BraceSpan(t).None? <==> !exists i, j :: 0 <= i < j < |t| && t[i] == '{' && t[j] == '}'
  {
    match IndexOf(t, '{')
    case None =>
    case Some(i) =>
      match LastIndexOf(t, '}')
      case None =>
      case Some(j) =>
        if j <= i {
          forall a, b | 0 <= a < b < |t| && t[a] == '{' && t[b] == '}' ensures false {
          }
        }
  }

  /** `parse_one_line_json`: the span is decoded by `decode`, the JSON
      decoder, which fails with `None`. */
  function ParseOneLineJson(text: string, decode: string -> Option<Json>): (r: Option<Json>)
    ensures '{' !in text || '}' !in text ==> r.None?
  {
    match BraceSpan(Strip(text))
    case None => None
    case Some(span) => decode(span)
  }

  // ----------------------------------------------------------------------
  // clamp_value
  // ----------------------------------------------------------------------

  /** `int(j)`; floats are not part of the value model. */
  function IntOf(j: Json): Option<int> {
    match j
    case JInt(i) => Some(i)
    case JBool(b) => Some(if b then 1 else 0)
    case JStr(s) => ParseInt(s)
    case _ => None
  }

  /** A range text split at `-` into exactly two integers. Since the
      pieces hold no `-`, neither bound can be negative. */
  function ParseRange(rng: Json): (r: Option<(int, int)>)
    ensures r.Some? ==> rng.JStr? && 0 <= r.value.0 && 0 <= r.value.1
  {
    if !rng.JStr? then None
    else
      var parts := SplitAll(rng.s, '-');
      if |parts| != 2 then None
      else
        match (ParseInt(parts[0]), ParseInt(parts[1]))
        case (Some(lo), Some(hi)) => Some((lo, hi))
        case _ => None
  }

  function Max(a: int, b: int): int { if a >= b then a else b }
  function Min(a: int, b: int): int { if a <= b then a else b }

  /** `max(lo, min(hi, v))` */
  function ClampInt(lo: int, hi: int, v: int): (r: int)
    ensures lo <= hi ==> lo <= r <= hi
    ensures lo <= v <= hi ==> r == v
    ensures hi < lo ==> r == lo
  {
    Max(lo, Min(hi, v))
  }

  /** The clamped `value` when the range parses, `value` is present and
      `int()` accepts it. */
  function ClampedValue(args: Dict, rng: Json): Option<int> {
    match ParseRange(rng)
    case None => None
    case Some((lo, hi)) =>
      match Find(args, "value")
      case None => None
      case Some(v) =>
        match IntOf(v)
        case None => None
        case Some(iv) => Some(ClampInt(lo, hi, iv))
  }

  /** The body of the `try` block: any failure inside it leaves `args` as it
      was. */
  function TryClamp(args: Json, rng: Json): Json {
    if !args.JDict? then args
    else
      match ClampedValue(args.entries, rng)
      case None => args
      case Some(v) => JDict(Set(args.entries, "value", JInt(v)))
  }

  /** `clamp_value`. The `"value" in args` test is outside the `try` block,
      so it raises when `args` is None, a bool or an int. */
  function Clamp(args: Json, hint: Dict): (r: Result<Json>)
    ensures r.Err? <==> Truthy(Get(hint, "value_range", JNull)) && (args.JNull? || args.JBool? || args.JInt?)
    ensures r.Err? ==> r.error == TypeError
  {
    var rng := Get(hint, "value_range", JNull);
    if !Truthy(rng) then Ok(args)
    else
      match In("value", args)
      case Err(e) => Err(e)
      case Ok(false) => Ok(args)
      case Ok(true) => Ok(TryClamp(args, rng))
  }

  lemma ClampOfDict(args: Dict, hint: Dict)
    ensures Clamp(JDict(args), hint) ==
      var rng := Get(hint, "value_range", JNull);
      if Truthy(rng) && HasKey(args, "value") then Ok(TryClamp(JDict(args), rng)) else Ok(JDict(args))
  {
    assert In("value", JDict(args)) == Ok(HasKey(args, "value"));
  }

  /** Only a dict can have its `value` clamped. */
  lemma ClampOfNonDict(args: Json, hint: Dict)
    requires !args.JDict? && Clamp(args, hint).Ok?
    ensures Clamp(args, hint) == Ok(args)
  {
  }

  /** A dict never makes `clamp_value` raise; only its `value` can change,
      every other entry and the key order stay. */
  lemma ClampDictKeeps(args: Dict, hint: Dict)
    ensures var r := Clamp(JDict(args), hint);
      && r.Ok? && r.value.JDict?
      && Keys(r.value.entries) == Keys(args)
      && (forall k :: k != "value" ==> Find(r.value.entries, k) == Find(args, k))
  {
    ClampOfDict(args, hint);
    var r := Clamp(JDict(args), hint);
    if r.value != JDict(args) {
      var v := ClampedValue(args, Get(hint, "value_range", JNull)).value;
      assert Find(args, "value").Some?;
      forall k | k != "value" ensures Find(r.value.entries, k) == Find(args, k) {
        FindSet(args, "value", JInt(v), k);
      }
    }
  }

  /** With a truthy range that parses as `lo-hi` and an int-convertible
      `value`, the new `value` is `max(lo, min(hi, int(value)))`. */
  lemma ClampSetsValue(args: Dict, hint: Dict)
    requires ClampedValue(args, Get(hint, "value_range", JNull)).Some?
    ensures var r := Clamp(JDict(args), hint);
      && r.Ok? && r.value.JDict?
      && Find(r.value.entries, "value") == Some(JInt(ClampedValue(args, Get(hint, "value_range", JNull)).value))
  {
    var v := ClampedValue(args, Get(hint, "value_range", JNull)).value;
    ClampDictStep(args, hint);
    FindSet(args, "value", JInt(v), "value");
  }

  /** A dict whose `value` clamps is rebuilt with the clamped `value`. */
  lemma ClampDictStep(args: Dict, hint: Dict)
    requires ClampedValue(args, Get(hint, "value_range", JNull)).Some?
    ensures Clamp(JDict(args), hint)
         == Ok(JDict(Set(args, "value", JInt(ClampedValue(args, Get(hint, "value_range", JNull)).value))))
  {
    var rng := Get(hint, "value_range", JNull);
    RangeIsTruthy(rng);
    assert HasKey(args, "value");
    ClampOfDict(args, hint);
    var v := ClampedValue(args, rng).value;
    assert TryClamp(JDict(args), rng) == JDict(Set(args, "value", JInt(v)));
  }

  /** A range that parses is a non-empty string, so it is truthy. */
  lemma RangeIsTruthy(rng: Json)
    requires ParseRange(rng).Some?
    ensures Truthy(rng)
  {
    var parts := SplitAll(rng.s, '-');
    assert |parts| == 2;
    assert Join("-", parts) == parts[0] + "-" + parts[1];
  }

  /** A clamped `value` clamps to itself. */
  lemma ClampedValueFixed(args: Dict, rng: Json)
    requires ClampedValue(args, rng).Some?
    ensures var v := ClampedValue(args, rng).value;
      ClampedValue(Set(args, "value", JInt(v)), rng) == Some(v)
  {
    var v := ClampedValue(args, rng).value;
    FindSet(args, "value", JInt(v), "value");
    var pr := ParseRange(rng).value;
    assert ClampInt(pr.0, pr.1, v) == v;
  }

  /** A malformed or missing range, a missing `value` or one `int()`
      rejects, such as "high", leave the dict unchanged. */
  lemma ClampLeavesUnchanged(args: Dict, hint: Dict)
    requires ClampedValue(args, Get(hint, "value_range", JNull)).None?
    ensures Clamp(JDict(args), hint) == Ok(JDict(args))
  {
    ClampOfDict(args, hint);
  }

  /** Clamping twice is clamping once, whatever the order of lo and hi. */
  lemma ClampIdempotent(args: Json, hint: Dict)
    requires Clamp(args, hint).Ok?
    ensures Clamp(Clamp(args, hint).value, hint) == Clamp(args, hint)
  {
    var rng := Get(hint, "value_range", JNull);
    if !args.JDict? {
      ClampOfNonDict(args, hint);
    } else if ClampedValue(args.entries, rng).Some? {
      var v := ClampedValue(args.entries, rng).value;
      var e := Set(args.entries, "value", JInt(v));
      ClampDictStep(args.entries, hint);
      ClampedValueFixed(args.entries, rng);
      ClampDictStep(e, hint);
      SetTwice(args.entries, "value", JInt(v));
    } else {
      ClampLeavesUnchanged(args.entries, hint);
    }
  }

  lemma {:induction false} SetTwice(d: Dict, k: string, v: Json)
    ensures Set(Set(d, k, v), k, v) == Set(d, k, v)
  {
    if d != [] && d[0].0 != k {
      SetTwice(d[1..], k, v);
    }
  }

  lemma ParseIntBounds()
    ensures ParseInt("0") == Some(0)
    ensures ParseInt("100") == Some(100)
  {
    assert NatToString(0) == "0";
    ParseIntOfNat(0);
    assert NatToString(100) == "100" by {
      assert NatToString(1) == "1";
      assert NatToString(10) == "10";
    }
    ParseIntOfNat(100);
  }

  lemma ParseIntOverRange()
    ensures ParseInt("150") == Some(150)
  {
    assert NatToString(150) == "150" by {
      assert NatToString(1) == "1";
      assert NatToString(15) == "15";
    }
    ParseIntOfNat(150);
  }

  lemma ParseIntWord()
    ensures ParseInt("high") == None
  {
    var w := "high";
    assert w[0] == 'h' && w[|w| - 1] == 'h';
    ParseIntNotNumeric(w);
  }

  lemma RangeExample()
    ensures ParseRange(JStr("0-100")) == Some((0, 100))
  {
    assert SplitFirst("0-100", '-') == Some(("0", "100")) by {
      assert "0-100"[1..] == "-100";
      assert IndexOf("-100", '-') == Some(0);
      assert IndexOf("0-100", '-') == Some(1);
      assert "0-100"[..1] == "0" && "0-100"[2..] == "100";
    }
    assert SplitFirst("100", '-') == None;
    assert SplitAll("0-100", '-') == ["0", "100"];
    ParseIntBounds();
  }

  /** "150" against "0-100" becomes 100. */
  lemma ClampExampleOverRange()
    ensures Clamp(JDict([("value", JStr("150"))]), [("value_range", JStr("0-100"))])
         == Ok(JDict([("value", JInt(100))]))
  {
    var hint := [("value_range", JStr("0-100"))];
    var a1 := [("value", JStr("150"))];
    assert Get(hint, "value_range", JNull) == JStr("0-100");
    OverRangeValue();
    ClampOfDict(a1, hint);
    assert HasKey(a1, "value");
    assert TryClamp(JDict(a1), JStr("0-100")) == JDict(Set(a1, "value", JInt(100)));
    assert Set(a1, "value", JInt(100)) == [("value", JInt(100))];
  }

  lemma OverRangeValue()
    ensures ClampedValue([("value", JStr("150"))], JStr("0-100")) == Some(100)
  {
    RangeExample();
    ParseIntOverRange();
  }

  /** "high" is not an integer, so it is left alone. */
  lemma ClampExampleWord()
    ensures Clamp(JDict([("value", JStr("high"))]), [("value_range", JStr("0-100"))])
         == Ok(JDict([("value", JStr("high"))]))
  {
    var hint := [("value_range", JStr("0-100"))];
    assert Get(hint, "value_range", JNull) == JStr("0-100");
    WordValue();
    ClampLeavesUnchanged([("value", JStr("high"))], hint);
  }

  lemma WordValue()
    ensures ClampedValue([("value", JStr("high"))], JStr("0-100")) == None
  {
    RangeExample();
    ParseIntWord();
    assert Find([("value", JStr("high"))], "value") == Some(JStr("high"));
  }
}
