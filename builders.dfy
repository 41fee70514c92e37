/** Static entity descriptors: capability tags decoded from feature bitmasks
    and colour modes, a short list of service names, the canonical `content`
    dict, its content hash and the descriptor text used for embedding. */
module Builders {
  import opened PyValues
  import opened Text

  // ----------------------------------------------------------------------
  // Small utilities
  // ----------------------------------------------------------------------

  /** `_norm`: None becomes "", numbers and booleans their `str`, anything
      else its stripped `str`. */
  function Norm(s: Json): (r: string)
    ensures s.JNull? ==> r == ""
    ensures s.JStr? ==> r == Strip(s.s)
    ensures IsPyInt(s) ==> r == Str(s)
  {
    match s
    case JNull => ""
    case JBool(_) => Str(s)
    case JInt(_) => Str(s)
    case JStr(x) => Strip(x)
    case _ => Strip(Str(s))
  }

  /** `_nonempty`: the parts that are not blank, in order. */
  function NonEmpty(parts: seq<string>): (r: seq<string>)
    ensures forall p :: p in r ==> p in parts && Strip(p) != ""
    ensures forall p :: p in parts && p != "" && Strip(p) != "" ==> p in r
    decreases |parts|
  {
    if parts == [] then []
    else
      var init, last := parts[..|parts| - 1], parts[|parts| - 1];
      assert parts == init + [last];
      NonEmpty(init) + (if last != "" && Strip(last) != "" then [last] else [])
  }

  /** `_nonempty` is a filter: one more part adds itself at the end exactly
      when it is not blank, so the kept parts keep their order. */
  lemma NonEmptyAppend(a: seq<string>, p: string)
    ensures NonEmpty(a + [p]) == NonEmpty(a) + (if p != "" && Strip(p) != "" then [p] else [])
  {
    assert (a + [p])[..|a|] == a;
  }

  // ----------------------------------------------------------------------
  // Content hash
  // ----------------------------------------------------------------------

  /** The canonical form `json.dumps(..., sort_keys=True)` serialises: a dict
      is the map from its keys to their values, so the order in which keys
      were inserted is gone. */
  datatype Canonical =
    | CNull
    | CBool(b: bool)
    | CInt(i: int)
    | CStr(s: string)
    | CList(items: seq<Canonical>)
    | CDict(m: map<string, Canonical>)

  /** The SHA-1 digest of the canonical serialisation, modelled as a digest
      that identifies the canonical form. */
  datatype Digest = Digest(of: Canonical)

  function Canon(j: Json): Canonical
    decreases j, 1
  {
    match j
    case JNull => CNull
    case JBool(b) => CBool(b)
    case JInt(i) => CInt(i)
    case JStr(s) => CStr(s)
    case JList(items) => CList(CanonList(items))
    case JDict(e) => CDict(CanonDict(e))
  }

  function CanonList(items: seq<Json>): seq<Canonical>
    decreases items, 0
  {
    if items == [] then [] else [Canon(items[0])] + CanonList(items[1..])
  }

  /** Keys map to the value of their first entry, as `Find` sees them. */
  function CanonDict(e: Dict): map<string, Canonical>
    decreases e, 0
  {
    if e == [] then map[]
    else
      var (k, v) := e[0];
      assert v < e[0];
      CanonDict(e[1..])[k := Canon(v)]
  }

  /** `_hash_dict` */
  function HashDict(d: Dict): Digest {
    Digest(Canon(JDict(d)))
  }

  lemma {:induction false} CanonDictAt(e: Dict, k: string)
    ensures k in CanonDict(e) <==> HasKey(e, k)
    ensures HasKey(e, k) ==> CanonDict(e)[k] == Canon(Find(e, k).value)
  {
    if e != [] {
      CanonDictAt(e[1..], k);
      assert Keys(e) == [e[0].0] + Keys(e[1..]);
    }
  }

  /** The content hash does not depend on the order in which the keys were
      inserted. */
  lemma HashIgnoresKeyOrder(d1: Dict, d2: Dict)
    requires DistinctKeys(d1) && DistinctKeys(d2)
    requires forall p :: p in d1 <==> p in d2
    ensures HashDict(d1) == HashDict(d2)
  {
    forall k
      ensures k in CanonDict(d1) <==> k in CanonDict(d2)
      ensures k in CanonDict(d1) ==> CanonDict(d1)[k] == CanonDict(d2)[k]
    {
      CanonDictAt(d1, k);
      CanonDictAt(d2, k);
      if HasKey(d1, k) {
        var v := Find(d1, k).value;
        assert (k, v) in d2;
        var i :| 0 <= i < |d2| && d2[i] == (k, v);
        assert Keys(d2)[i] == k;
        FindDistinct(d2, k, v);
      }
      if HasKey(d2, k) {
        var v := Find(d2, k).value;
        assert (k, v) in d1;
        var i :| 0 <= i < |d1| && d1[i] == (k, v);
        assert Keys(d1)[i] == k;
        FindDistinct(d1, k, v);
      }
    }
    assert CanonDict(d1) == CanonDict(d2);
  }

  /** Equal content hashes mean the same keys with canonically equal values:
      a change in any field is detected. */
  lemma HashDetectsChange(d1: Dict, d2: Dict, k: string)
    requires HashDict(d1) == HashDict(d2)
    ensures HasKey(d1, k) <==> HasKey(d2, k)
    ensures HasKey(d1, k) ==> Canon(Find(d1, k).value) == Canon(Find(d2, k).value)
  {
    CanonDictAt(d1, k);
    CanonDictAt(d2, k);
  }

  // ----------------------------------------------------------------------
  // supported_features decoding
  // ----------------------------------------------------------------------

  function Abs(x: int): nat {
    if x < 0 then -x else x
  }

  /** Python's `x & y` on unbounded two's-complement integers. */
  function BitAnd(x: int, y: int): int
    decreases Abs(x) + Abs(y)
  {
    if x == 0 || y == 0 then 0
    else if x == -1 then y
    else if y == -1 then x
    else
      assert Abs(x / 2) < Abs(x) && Abs(y / 2) < Abs(y);
      2 * BitAnd(x / 2, y / 2) + (x % 2) * (y % 2)
  }

  function Pow2(k: nat): (p: nat)
    ensures p >= 1
  {
    if k == 0 then 1 else 2 * Pow2(k - 1)
  }

  lemma DivDiv(a: int, b: nat, c: nat)
    requires b > 0 && c > 0
    ensures a / b / c == a / (b * c)
  {
    var q1, r1 := a / b, a % b;
    var q2, r2 := q1 / c, q1 % c;
    Regroup(a, b, c, q1, r1, q2, r2);
    DivUnique(a, b * c, q2, b * r2 + r1);
  }

  /** `a = b*q1 + r1` and `q1 = c*q2 + r2` give `a = (b*c)*q2 + (b*r2 + r1)`
      with the new remainder below `b*c`. */
  lemma Regroup(a: int, b: int, c: int, q1: int, r1: int, q2: int, r2: int)
    requires b > 0 && c > 0
    requires a == b * q1 + r1 && 0 <= r1 < b
    requires q1 == c * q2 + r2 && 0 <= r2 < c
    ensures a == (b * c) * q2 + (b * r2 + r1)
    ensures 0 <= b * r2 + r1 < b * c
  {
    assert b * q1 == b * (c * q2) + b * r2;
    assert b * (c * q2) == (b * c) * q2;
    assert b * r2 <= b * (c - 1) by {
      MulMono(b, r2, c - 1);
    }
    assert b * (c - 1) == b * c - b;
  }

  lemma MulMono(b: int, x: int, y: int)
    requires b > 0 && 0 <= x <= y
    ensures b * x <= b * y
  {
    assert b * y == b * x + b * (y - x);
    if y > x {
      MulAtLeast(b, y - x);
    }
  }

  lemma DivUnique(a: int, d: int, q: int, r: int)
    requires d > 0 && a == d * q + r && 0 <= r < d
    ensures a / d == q
  {
    var q', r' := a / d, a % d;
    assert d * q + r == d * q' + r';
    if q > q' {
      MulAtLeast(d, q - q');
    } else if q < q' {
      MulAtLeast(d, q' - q);
    }
  }

  lemma {:induction false} MulAtLeast(d: int, n: int)
    requires d > 0 && n >= 1
    ensures d * n >= d
    decreases n
  {
    if n > 1 {
      MulAtLeast(d, n - 1);
      assert d * n == d * (n - 1) + d;
    }
  }

  lemma MinusOneDiv(p: nat)
    requires p >= 1
    ensures -1 / p == -1
  {
    DivUnique(-1, p, -1, p - 1);
  }

  /** For a one-bit mask `1 << k`, `mask & (1 << k)` is non-zero exactly when
      bit `k` of `mask` is set. */
  lemma {:induction false} BitAndPow2(mask: int, k: nat)
    ensures BitAnd(mask, Pow2(k)) != 0 <==> (mask / Pow2(k)) % 2 == 1
    decreases k
  {
    if mask == 0 {
    } else if mask == -1 {
      MinusOneDiv(Pow2(k));
    } else if k == 0 {
      assert BitAnd(mask / 2, 0) == 0;
    } else {
      BitAndPow2(mask / 2, k - 1);
      DivDiv(mask, 2, Pow2(k - 1));
      assert Pow2(k) % 2 == 0;
    }
  }

  /** A bit table: `(1 << k, name)` entries in declaration order. */
  type BitTable = seq<(int, string)>

  const FanBits: BitTable := [
    (1, "can_set_speed"),
    (2, "can_oscillate"),
    (4, "can_set_direction"),
    (8, "has_preset_modes")
  ]

  const MediaBits: BitTable := [
    (1, "can_pause"),
    (2, "can_seek"),
    (8, "can_next_track"),
    (16, "can_previous_track"),
    (32, "can_turn_on"),
    (64, "can_turn_off"),
    (128, "can_volume_set"),
    (256, "can_volume_mute"),
    (512, "can_volume_step"),
    (1024, "can_select_source"),
    (2048, "can_select_sound_mode")
  ]

  const LightFeatureBits: BitTable := [
    (4, "has_effects"),
    (8, "can_flash"),
    (32, "has_transition")
  ]

  /** The names of a table, in order. */
  function Names(table: BitTable): (r: seq<string>)
    ensures |r| == |table|
    ensures forall i :: 0 <= i < |table| ==> r[i] == table[i].1
  {
    if table == [] then [] else [table[0].1] + Names(table[1..])
  }

  /** The names whose bit is set in `mask`, in table order. */
  function BitNames(mask: int, table: BitTable): seq<string> {
    if table == [] then []
    else
      var rest := BitNames(mask, table[1..]);
      if BitAnd(mask, table[0].0) != 0 then [table[0].1] + rest else rest
  }

  lemma {:induction false} BitNamesMember(mask: int, table: BitTable, x: string)
    ensures x in BitNames(mask, table) <==>
      exists i :: 0 <= i < |table| && table[i].1 == x && BitAnd(mask, table[i].0) != 0
  {
    if table != [] {
      BitNamesMember(mask, table[1..], x);
      if x in BitNames(mask, table[1..]) {
        var i :| 0 <= i < |table[1..]| && table[1..][i].1 == x && BitAnd(mask, table[1..][i].0) != 0;
        assert table[i + 1] == table[1..][i];
      }
      forall i | 1 <= i < |table| && table[i].1 == x && BitAnd(mask, table[i].0) != 0
        ensures x in BitNames(mask, table[1..])
      {
        assert table[1..][i - 1] == table[i];
      }
    }
  }

  /** `-1` has every bit set, `0` none. */
  lemma {:induction false} BitNamesExtremes(table: BitTable)
    requires forall i :: 0 <= i < |table| ==> table[i].0 > 0
    ensures BitNames(0, table) == []
    ensures BitNames(-1, table) == Names(table)
  {
    if table != [] {
      BitNamesExtremes(table[1..]);
    }
  }

  /** `_decode_bits` */
  method DecodeBits(mask: int, table: BitTable) returns (out: seq<string>)
    ensures out == BitNames(mask, table)
  {
    out := [];
    var i := |table|;
    // Building from the back keeps the loop in step with `BitNames`.
    while i > 0
      invariant 0 <= i <= |table|
      invariant out == BitNames(mask, table[i..])
    {
      i := i - 1;
      assert table[i..][1..] == table[i + 1..];
      if BitAnd(mask, table[i].0) != 0 {
        out := [table[i].1] + out;
      }
    }
  }

  predicate NoDup(s: seq<string>) {
    forall i, j :: 0 <= i < j < |s| ==> s[i] != s[j]
  }

  /** First-seen de-duplication. */
  function Dedupe(s: seq<string>): seq<string> {
    if s == [] then []
    else
      var r := Dedupe(s[..|s| - 1]);
      if s[|s| - 1] in r then r else r + [s[|s| - 1]]
  }

  lemma {:induction false} DedupeElements(s: seq<string>)
    ensures NoDup(Dedupe(s))
    ensures forall x :: x in Dedupe(s) <==> x in s
  {
    if s != [] {
      var init := s[..|s| - 1];
      DedupeElements(init);
      assert s == init + [s[|s| - 1]];
    }
  }

  function FirstIndex(s: seq<string>, x: string): (i: nat)
    requires x in s
    ensures i < |s| && s[i] == x && x !in s[..i]
  {
    if s[0] == x then 0
    else
      var j := FirstIndex(s[1..], x);
      assert s[..j + 1] == [s[0]] + s[1..][..j];
      j + 1
  }

  lemma FirstIndexPrefix(s: seq<string>, n: nat, x: string)
    requires n <= |s| && x in s[..n]
    ensures FirstIndex(s, x) == FirstIndex(s[..n], x)
  {
    var i := FirstIndex(s[..n], x);
    var j := FirstIndex(s, x);
    assert s[..n][..i] == s[..i];
  }

  /** De-duplication keeps the order in which the tags were first seen. */
  lemma {:induction false} DedupeFirstSeenOrder(s: seq<string>)
    ensures forall i, j :: 0 <= i < j < |Dedupe(s)| ==>
      Dedupe(s)[i] in s && Dedupe(s)[j] in s && FirstIndex(s, Dedupe(s)[i]) < FirstIndex(s, Dedupe(s)[j])
  {
    DedupeElements(s);
    if s != [] {
      var n := |s| - 1;
      var init := s[..n];
      var r := Dedupe(init);
      DedupeFirstSeenOrder(init);
      DedupeElements(init);
      forall i, j | 0 <= i < j < |Dedupe(s)|
        ensures FirstIndex(s, Dedupe(s)[i]) < FirstIndex(s, Dedupe(s)[j])
      {
        var a, b := Dedupe(s)[i], Dedupe(s)[j];
        assert a in init by { assert i < |r|; assert a == r[i]; }
        FirstIndexPrefix(s, n, a);
        if j < |r| {
          FirstIndexPrefix(s, n, b);
        } else {
          assert b == s[n] && b !in r;
          assert b !in init;
          assert FirstIndex(s, b) == n;
        }
      }
    }
  }

  lemma {:induction false} DedupeKeepsNoDup(s: seq<string>)
    requires NoDup(s)
    ensures Dedupe(s) == s
  {
    if s != [] {
      var init := s[..|s| - 1];
      DedupeKeepsNoDup(init);
      assert s == init + [s[|s| - 1]];
    }
  }

  /** The de-duplication loop of `_decode_supported_features`. */
  method DedupeTags(feats: seq<string>) returns (dedup: seq<string>)
    ensures dedup == Dedupe(feats)
  {
    var seen: set<string> := {};
    dedup := [];
    for i := 0 to |feats|
      invariant dedup == Dedupe(feats[..i])
      invariant forall x :: x in seen <==> x in dedup
    {
      var f := feats[i];
      assert feats[..i + 1][..i] == feats[..i];
      if f !in seen {
        dedup := dedup + [f];
        seen := seen + {f};
      }
    }
    assert feats[..|feats|] == feats;
  }

  const ColorModes: seq<string> := ["hs", "xy", "rgb", "rgbw", "rgbww"]

  /** Tags from `supported_color_modes`, in the fixed order brightness,
      colour temperature, colour, white. */
  function LightModeTags(modes: Json): seq<string> {
    if modes.JList? then
      var lower := LowerNames(modes.items);
      (if "brightness" in lower then ["has_brightness"] else [])
      + (if "color_temp" in lower then ["has_color_temperature"] else [])
      + (if AnyColorMode(lower) then ["has_color"] else [])
      + (if "white" in lower then ["has_white"] else [])
    else []
  }

  /** Some mode is one of the colour modes. */
  predicate AnyColorMode(lower: seq<string>) {
    exists m :: m in ColorModes && m in lower
  }

  /** Each colour mode rendered with `str` and lower-cased. */
  function LowerNames(items: seq<Json>): seq<string> {
    seq(|items|, i requires 0 <= i < |items| => Lower(Str(items[i])))
  }

  /** The colour-mode part of `_decode_supported_features`. */
  method LightModes(modes: Json) returns (feats: seq<string>)
    ensures feats == LightModeTags(modes)
  {
    feats := [];
    if modes.JList? {
      var lower := LowerNames(modes.items);
      if "brightness" in lower { feats := feats + ["has_brightness"]; }
      if "color_temp" in lower { feats := feats + ["has_color_temperature"]; }
      if AnyColorMode(lower) { feats := feats + ["has_color"]; }
      if "white" in lower { feats := feats + ["has_white"]; }
    }
  }

  /** The integer `supported_features`, if the attribute is an `int`. */
  function FeatureMask(attrs: Dict): Option<int> {
    var sf := Get(attrs, "supported_features", JNull);
    if IsPyInt(sf) then Some(AsInt(sf)) else None
  }

  function MaskNames(mask: Option<int>, table: BitTable): seq<string> {
    if mask.Some? then BitNames(mask.value, table) else []
  }

  /** The tags before de-duplication. */
  function RawFeatures(domain: string, attrs: Dict): seq<string> {
    var mask := FeatureMask(attrs);
    var dom := Lower(domain);
    if dom == "fan" then MaskNames(mask, FanBits)
    else if dom == "media_player" then MaskNames(mask, MediaBits)
    else if dom == "light" then
      LightModeTags(Get(attrs, "supported_color_modes", JNull)) + MaskNames(mask, LightFeatureBits)
    else []
  }

  function FeatureTags(domain: string, attrs: Dict): seq<string> {
    Dedupe(RawFeatures(domain, attrs))
  }

  /** `_decode_supported_features` */
  method DecodeSupportedFeatures(domain: string, attrs: Dict) returns (tags: seq<string>)
    ensures tags == FeatureTags(domain, attrs)
  {
    var feats: seq<string> := [];
    var mask := FeatureMask(attrs);
    var dom := Lower(domain);
    if dom == "fan" {
      feats := MaskTags(mask, FanBits);
    } else if dom == "media_player" {
      feats := MaskTags(mask, MediaBits);
    } else if dom == "light" {
      feats := LightTags(attrs, mask);
    }
    tags := DedupeTags(feats);
  }

  /** The names of the set bits, when there is an integer mask. */
  method MaskTags(mask: Option<int>, table: BitTable) returns (names: seq<string>)
    ensures names == MaskNames(mask, table)
  {
    names := [];
    if mask.Some? {
      names := DecodeBits(mask.value, table);
    }
  }

  /** A light's colour-mode tags followed by its feature-bit tags. */
  method LightTags(attrs: Dict, mask: Option<int>) returns (feats: seq<string>)
    ensures feats == LightModeTags(Get(attrs, "supported_color_modes", JNull)) + MaskNames(mask, LightFeatureBits)
  {
    var modeTags := LightModes(Get(attrs, "supported_color_modes", JNull));
    var names := MaskTags(mask, LightFeatureBits);
    feats := modeTags + names;
  }

  /** Only fan, media_player and light have tags, and fan and media_player
      only with an integer `supported_features`. */
  lemma NoTagsOutsideKnownDomains(domain: string, attrs: Dict)
    ensures Lower(domain) !in {"fan", "media_player", "light"} ==> FeatureTags(domain, attrs) == []
    ensures Lower(domain) in {"fan", "media_player"} && !IsPyInt(Get(attrs, "supported_features", JNull))
      ==> FeatureTags(domain, attrs) == []
  {
  }

  lemma BitTableNames(table: BitTable, mask: int)
    requires NoDup(Names(table))
    ensures NoDup(BitNames(mask, table))
    ensures forall x :: x in BitNames(mask, table) ==> x in Names(table)
  {
    forall x | x in BitNames(mask, table) ensures x in Names(table) {
      BitNamesMember(mask, table, x);
      var i :| 0 <= i < |table| && table[i].1 == x && BitAnd(mask, table[i].0) != 0;
      assert Names(table)[i] == x;
    }
    BitNamesNoDup(table, mask);
  }

  lemma {:induction false} BitNamesNoDup(table: BitTable, mask: int)
    requires NoDup(Names(table))
    ensures NoDup(BitNames(mask, table))
  {
    if table != [] {
      var names := Names(table);
      assert Names(table[1..]) == names[1..];
      BitNamesNoDup(table[1..], mask);
      BitNamesWithin(mask, table[1..]);
      assert table[0].1 !in names[1..] by {
        forall j | 0 <= j < |names| - 1 ensures names[1..][j] != names[0] {
          assert names[1..][j] == names[j + 1];
        }
      }
      NoDupConcat([table[0].1], BitNames(mask, table[1..]));
    }
  }

  /** Every decoded name is a name of the table. */
  lemma {:induction false} BitNamesWithin(mask: int, table: BitTable)
    ensures forall x :: x in BitNames(mask, table) ==> x in Names(table)
  {
    if table != [] {
      BitNamesWithin(mask, table[1..]);
    }
  }

  lemma NoDupConcat(a: seq<string>, b: seq<string>)
    requires NoDup(a) && NoDup(b)
    requires forall x :: x in a ==> x !in b
    ensures NoDup(a + b)
  {
    var s := a + b;
    forall i, j | 0 <= i < j < |s| ensures s[i] != s[j] {
      if j < |a| {
        assert s[i] == a[i] && s[j] == a[j];
      } else if i < |a| {
        assert s[i] == a[i] && s[j] == b[j - |a|];
        assert a[i] in a;
      } else {
        assert s[i] == b[i - |a|] && s[j] == b[j - |a|];
      }
    }
  }

  const ModeTagNames: seq<string> := ["has_brightness", "has_color_temperature", "has_color", "has_white"]

  lemma LightModeTagsShape(modes: Json)
    ensures NoDup(LightModeTags(modes))
    ensures forall x :: x in LightModeTags(modes) ==> x in ModeTagNames
  {
    if modes.JList? {
      var lower := LowerNames(modes.items);
      var a := if "brightness" in lower then ["has_brightness"] else [];
      var b := if "color_temp" in lower then ["has_color_temperature"] else [];
      var c := if AnyColorMode(lower) then ["has_color"] else [];
      var d := if "white" in lower then ["has_white"] else [];
      assert LightModeTags(modes) == a + b + c + d;
      NoDupConcat(a, b);
      NoDupConcat(a + b, c);
      NoDupConcat(a + b + c, d);
    }
  }

  /** For a light, colour-mode tags come first in their fixed order and the
      feature-bit tags of {4, 8, 32} follow; nothing is dropped. */
  lemma LightTagOrder(attrs: Dict)
    ensures FeatureTags("light", attrs) ==
      LightModeTags(Get(attrs, "supported_color_modes", JNull)) + MaskNames(FeatureMask(attrs), LightFeatureBits)
  {
    var modes := LightModeTags(Get(attrs, "supported_color_modes", JNull));
    var bits := MaskNames(FeatureMask(attrs), LightFeatureBits);
    LightRaw(attrs);
    LightBitsShape(FeatureMask(attrs));
    LightModeTagsShape(Get(attrs, "supported_color_modes", JNull));
    NoDupConcat(modes, bits);
    DedupeKeepsNoDup(modes + bits);
  }

  lemma LightRaw(attrs: Dict)
    ensures RawFeatures("light", attrs) ==
      LightModeTags(Get(attrs, "supported_color_modes", JNull)) + MaskNames(FeatureMask(attrs), LightFeatureBits)
  {
    assert Lower("light") == "light";
  }

  /** A light's feature-bit tags are distinct and none is a colour-mode tag. */
  lemma LightBitsShape(mask: Option<int>)
    ensures NoDup(MaskNames(mask, LightFeatureBits))
    ensures forall x :: x in MaskNames(mask, LightFeatureBits) ==> x !in ModeTagNames
  {
    assert Names(LightFeatureBits) == ["has_effects", "can_flash", "has_transition"];
    if mask.Some? {
      BitTableNames(LightFeatureBits, mask.value);
    }
  }

  // ----------------------------------------------------------------------
  // Service names
  // ----------------------------------------------------------------------

  const Priority: seq<string> := [
    "turn_on", "turn_off", "toggle", "set_percentage", "oscillate",
    "set_temperature", "open", "close", "pause", "play",
    "volume_set", "volume_up", "volume_down"
  ]

  const MaxServiceNames := 12

  /** The elements of `xs` that are in `ys`, in the order of `xs`. */
  function KeepIn(xs: seq<string>, ys: seq<string>): (r: seq<string>)
    ensures forall x :: x in r <==> x in xs && x in ys
  {
    if xs == [] then []
    else if xs[0] in ys then [xs[0]] + KeepIn(xs[1..], ys)
    else KeepIn(xs[1..], ys)
  }

  /** The elements of `xs` that are not in `ys`, in the order of `xs`. */
  function KeepNotIn(xs: seq<string>, ys: seq<string>): (r: seq<string>)
    ensures forall x :: x in r <==> x in xs && x !in ys
  {
    if xs == [] then []
    else if xs[0] !in ys then [xs[0]] + KeepNotIn(xs[1..], ys)
    else KeepNotIn(xs[1..], ys)
  }

  /** Priority names that occur first, in priority order, then the other
      names in alphabetical order. */
  function OrderServices(names: seq<string>): seq<string> {
    var sorted := Sort(names);
    KeepIn(Priority, sorted) + KeepNotIn(sorted, Priority)
  }

  function Take(s: seq<string>, n: nat): (r: seq<string>)
    ensures |r| <= n && |r| <= |s| && r == s[..|r|]
    ensures |s| <= n ==> r == s
  {
    if |s| <= n then s else s[..n]
  }

  /** `_service_names_for_domain` */
  function ServiceNames(block: Json): seq<string> {
    if !block.JDict? then [] else Take(OrderServices(Keys(block.entries)), MaxServiceNames)
  }

  /** The first `p` names are exactly the priority ones, in priority order,
      and the names after them are sorted. */
  predicate PriorityThenSorted(r: seq<string>, p: nat) {
    && (forall i :: 0 <= i < |r| ==> (r[i] in Priority <==> i < p))
    && (forall i, j :: 0 <= i < j < |r| && j < p ==> FirstIndex(Priority, r[i]) < FirstIndex(Priority, r[j]))
    && (p <= |r| ==> Sorted(r[p..]))
  }

  lemma {:induction false} KeepInOrder(xs: seq<string>, ys: seq<string>)
    requires NoDup(xs)
    ensures NoDup(KeepIn(xs, ys))
    ensures forall i, j :: 0 <= i < j < |KeepIn(xs, ys)| ==>
      FirstIndex(xs, KeepIn(xs, ys)[i]) < FirstIndex(xs, KeepIn(xs, ys)[j])
  {
    if xs != [] {
      KeepInOrder(xs[1..], ys);
      var t := KeepIn(xs[1..], ys);
      forall x | x in t ensures x != xs[0] && FirstIndex(xs, x) == FirstIndex(xs[1..], x) + 1 {
        TailIndex(xs, x);
      }
      if xs[0] in ys {
        ConsOrdered(xs, t);
      }
    }
  }

  /** In a list without duplicates, an element of the tail is not the head
      and sits one place further than in the tail. */
  lemma TailIndex(xs: seq<string>, x: string)
    requires xs != [] && NoDup(xs) && x in xs[1..]
    ensures x != xs[0] && FirstIndex(xs, x) == FirstIndex(xs[1..], x) + 1
  {
    var m :| 0 <= m < |xs[1..]| && xs[1..][m] == x;
    assert xs[m + 1] == x;
  }

  /** Putting the head in front of an ordered selection from the tail keeps
      it ordered and duplicate-free. */
  lemma ConsOrdered(xs: seq<string>, t: seq<string>)
    requires xs != [] && NoDup(t)
    requires forall x :: x in t ==> x != xs[0] && x in xs && FirstIndex(xs, x) > 0
    requires forall i, j :: 0 <= i < j < |t| ==> FirstIndex(xs, t[i]) < FirstIndex(xs, t[j])
    ensures NoDup([xs[0]] + t)
    ensures forall i, j :: 0 <= i < j < |[xs[0]] + t| ==>
      FirstIndex(xs, ([xs[0]] + t)[i]) < FirstIndex(xs, ([xs[0]] + t)[j])
  {
    var r := [xs[0]] + t;
    assert FirstIndex(xs, xs[0]) == 0;
    forall j | 0 < j < |r| ensures r[j] == t[j - 1] && r[j] in t {
    }
    forall i, j | 0 < i < j < |r| ensures FirstIndex(xs, r[i]) < FirstIndex(xs, r[j]) {
      assert r[i] == t[i - 1] && r[j] == t[j - 1];
    }
  }

  lemma {:induction false} KeepNotInSorted(xs: seq<string>, ys: seq<string>)
    requires Sorted(xs) && NoDup(xs)
    ensures Sorted(KeepNotIn(xs, ys)) && NoDup(KeepNotIn(xs, ys))
  {
    if xs != [] {
      KeepNotInSorted(xs[1..], ys);
      var t := KeepNotIn(xs[1..], ys);
      forall x | x in t ensures LexLe(xs[0], x) && x != xs[0] {
        assert x in xs[1..];
        var m :| 0 <= m < |xs[1..]| && xs[1..][m] == x;
        assert xs[m + 1] == x;
      }
      if xs[0] !in ys {
        forall k | 0 <= k < |t| ensures LexLe(xs[0], t[k]) {
          assert t[k] in t;
        }
        ConsSorted(xs[0], t);
        NoDupConcat([xs[0]], t);
      }
    }
  }

  lemma {:induction false} InsertNoDup(x: string, s: seq<string>)
    requires NoDup(s) && x !in s
    ensures NoDup(Insert(x, s))
  {
    if s != [] && !LexLe(x, s[0]) {
      assert s[0] !in s[1..];
      InsertNoDup(x, s[1..]);
      InsertPerm(x, s[1..]);
      assert s[0] !in multiset(Insert(x, s[1..]));
    }
  }

  lemma {:induction false} SortNoDup(s: seq<string>)
    requires NoDup(s)
    ensures NoDup(Sort(s))
  {
    if s != [] {
      SortNoDup(s[1..]);
      SortSameElements(s[1..], s[0]);
      assert s[0] !in s[1..];
      InsertNoDup(s[0], Sort(s[1..]));
    }
  }

  lemma PriorityNoDup()
    ensures NoDup(Priority)
  {
  }

  lemma OrderServicesShape(names: seq<string>)
    requires NoDup(names)
    ensures NoDup(OrderServices(names))
    ensures forall x :: x in OrderServices(names) <==> x in names
    ensures PriorityThenSorted(OrderServices(names), |KeepIn(Priority, names)|)
  {
    var sorted := Sort(names);
    SortNoDup(names);
    SortSorted(names);
    forall x ensures x in sorted <==> x in names { SortSameElements(names, x); }
    var pref := KeepIn(Priority, sorted);
    var rest := KeepNotIn(sorted, Priority);
    PriorityNoDup();
    KeepInOrder(Priority, sorted);
    KeepNotInSorted(sorted, Priority);
    KeepInSameSet(Priority, sorted, names);
    NoDupConcat(pref, rest);
    var r := pref + rest;
    forall i | 0 <= i < |r| ensures (r[i] in Priority <==> i < |pref|) {
      if i < |pref| { assert r[i] == pref[i]; assert pref[i] in pref; }
      else { assert r[i] == rest[i - |pref|]; assert rest[i - |pref|] in rest; }
    }
    assert r[|pref|..] == rest;
  }

  lemma TakeKeepsShape(r: seq<string>, p: nat, n: nat)
    requires NoDup(r) && PriorityThenSorted(r, p)
    ensures NoDup(Take(r, n)) && PriorityThenSorted(Take(r, n), p)
    ensures forall x :: x in Take(r, n) ==> x in r
  {
    var t := Take(r, n);
    assert forall i :: 0 <= i < |t| ==> t[i] == r[i];
    if p <= |t| {
      assert t[p..] == r[p..][..|t| - p];
      assert Sorted(r[p..]);
      forall i, j | 0 <= i < j < |t| - p ensures LexLe(t[p..][i], t[p..][j]) {
        assert t[p..][i] == r[p..][i] && t[p..][j] == r[p..][j];
      }
    }
  }

  /** At most 12 names, all of them services of the block and none twice;
      the priority names that occur come first, in priority order, and the
      remaining names follow in alphabetical order. A non-dict gives []. */
  lemma ServiceNamesShape(block: Json)
    requires block.JDict? ==> DistinctKeys(block.entries)
    ensures !block.JDict? ==> ServiceNames(block) == []
    ensures |ServiceNames(block)| <= MaxServiceNames
    ensures NoDup(ServiceNames(block))
    ensures block.JDict? ==> forall n :: n in ServiceNames(block) ==> HasKey(block.entries, n)
    ensures block.JDict? ==> PriorityThenSorted(ServiceNames(block), |KeepIn(Priority, Keys(block.entries))|)
  {
    if block.JDict? {
      var keys := Keys(block.entries);
      assert NoDup(keys) by {
        forall i, j | 0 <= i < j < |keys| ensures keys[i] != keys[j] {
          assert keys[i] == block.entries[i].0 && keys[j] == block.entries[j].0;
        }
      }
      OrderServicesShape(keys);
      TakeKeepsShape(OrderServices(keys), |KeepIn(Priority, keys)|, MaxServiceNames);
    }
  }

  lemma {:induction false} KeepInSameSet(xs: seq<string>, ys: seq<string>, zs: seq<string>)
    requires forall x :: x in ys <==> x in zs
    ensures KeepIn(xs, ys) == KeepIn(xs, zs)
  {
    if xs != [] {
      KeepInSameSet(xs[1..], ys, zs);
    }
  }

  // ----------------------------------------------------------------------
  // build_static_descriptor
  // ----------------------------------------------------------------------

  datatype Descriptor = Descriptor(text: string, content: Dict, contentHash: Digest)

  /** The text before the first `.` of an entity id, or "". */
  function DomainOf(eid: string): string {
    match SplitFirst(eid, '.')
    case Some((d, _)) => d
    case None => ""
  }

  /** `if cond: c[k] = v` */
  function SetIf(c: Dict, cond: bool, k: string, v: Json): Dict {
    if cond then Set(c, k, v) else c
  }

  lemma SetIfDistinct(c: Dict, cond: bool, k: string, v: Json)
    requires DistinctKeys(c)
    ensures DistinctKeys(SetIf(c, cond, k, v))
  {
    if cond {
      SetKeepsDistinct(c, k, v);
    }
  }

  lemma SetIfFind(c: Dict, cond: bool, k: string, v: Json, k': string)
    ensures Find(SetIf(c, cond, k, v), k') == if cond && k' == k then Some(v) else Find(c, k')
  {
    if cond {
      FindSet(c, k, v, k');
    }
  }

  /** The canonical content dict: entity_id, friendly_name and domain always,
      area, capabilities and services only when non-empty. */
  function ContentOf(eid: string, friendly: string, domain: string, area: string,
                     feats: seq<string>, svc: seq<string>): Dict
  {
    var base := [("entity_id", JStr(eid)), ("friendly_name", JStr(friendly)), ("domain", JStr(domain))];
    var withArea := SetIf(base, area != "", "area", JStr(area));
    var withCaps := SetIf(withArea, feats != [], "capabilities", StrList(feats));
    SetIf(withCaps, svc != [], "services", StrList(svc))
  }

  function DescriptorParts(friendly: string, domain: string, area: string,
                           feats: seq<string>, svc: seq<string>): seq<string>
  {
    var titleBits := [friendly]
      + (if domain != "" then ["(" + domain + " domain)"] else [])
      + (if area != "" then ["in " + ReplaceChar(area, '_', ' ')] else []);
    var title := Strip(Join(" ", titleBits));
    [title + "."]
      + (if feats != [] then ["Capabilities: " + Join(", ", feats) + "."] else [])
      + (if svc != [] then ["Services: " + Join(", ", svc) + "."] else [])
  }

  /** The descriptor text: every part ends with `.`, so `_nonempty` keeps
      them all, and the text is the title sentence, then the capabilities
      sentence when there are capabilities, then the services sentence
      when there are services. */
  function DescriptorText(friendly: string, domain: string, area: string,
                          feats: seq<string>, svc: seq<string>): (r: string)
    ensures r == Join(" ", DescriptorParts(friendly, domain, area, feats, svc))
  {
    var parts := DescriptorParts(friendly, domain, area, feats, svc);
    PartsEndWithDot(friendly, domain, area, feats, svc);
    EndsWithDotKept(parts);
    Join(" ", NonEmpty(parts))
  }

  lemma PartsEndWithDot(friendly: string, domain: string, area: string, feats: seq<string>, svc: seq<string>)
    ensures forall i :: 0 <= i < |DescriptorParts(friendly, domain, area, feats, svc)| ==>
      EndsWithDot(DescriptorParts(friendly, domain, area, feats, svc)[i])
  {
    var parts := DescriptorParts(friendly, domain, area, feats, svc);
    var t := parts[0];
    var c := if feats != [] then ["Capabilities: " + Join(", ", feats) + "."] else [];
    var v := if svc != [] then ["Services: " + Join(", ", svc) + "."] else [];
    assert parts == [t] + c + v;
    assert EndsWithDot(t);
    assert forall x :: x in c ==> EndsWithDot(x);
    assert forall x :: x in v ==> EndsWithDot(x);
    assert forall i :: 0 <= i < |parts| ==> parts[i] in [t] + c + v;
  }

  predicate EndsWithDot(p: string) {
    p != "" && p[|p| - 1] == '.'
  }

  /** Parts that all end with `.` are all kept by `_nonempty`. */
  lemma {:induction false} EndsWithDotKept(parts: seq<string>)
    requires forall i :: 0 <= i < |parts| ==> EndsWithDot(parts[i])
    ensures NonEmpty(parts) == parts
    decreases |parts|
  {
    if parts != [] {
      var init, last := parts[..|parts| - 1], parts[|parts| - 1];
      assert EndsWithDot(last);
      StripKeeps(last, |last| - 1);
      assert forall i :: 0 <= i < |init| ==> init[i] == parts[i];
      EndsWithDotKept(init);
      SplitLast(parts);
    }
  }

  lemma SplitLast(parts: seq<string>)
    requires parts != []
    ensures parts == parts[..|parts| - 1] + [parts[|parts| - 1]]
  {
  }


  /** The attributes of a state, `{}` when absent or falsy; they
      must be a dict for the `.get` calls that follow. */
  function AttributesOf(state: Dict): Result<Dict> {
    var a := Or(Get(state, "attributes", JNull), JDict([]));
    if a.JDict? then Ok(a.entries) else Err(AttributeError)
  }

  function AreaOf(attrs: Dict): string {
    Norm(Or(Or(Or(Get(attrs, "area", JNull), Get(attrs, "area_id", JNull)), Get(attrs, "room", JNull)), JStr("")))
  }

  function FriendlyOf(attrs: Dict, eid: string): string {
    var f := Norm(Get(attrs, "friendly_name", JNull));
    if f != "" then f else eid
  }

  /** What `build_static_descriptor` returns for a state and its domain's
      services block. */
  function Describe(state: Dict, block: Json): Result<Descriptor> {
    var eid := Norm(Get(state, "entity_id", JNull));
    match AttributesOf(state)
    case Err(e) => Err(e)
    case Ok(attrs) =>
      var friendly := FriendlyOf(attrs, eid);
      var domain := DomainOf(eid);
      var area := AreaOf(attrs);
      var feats := FeatureTags(domain, attrs);
      var svc := ServiceNames(block);
      var content := ContentOf(eid, friendly, domain, area, feats, svc);
      Ok(Descriptor(DescriptorText(friendly, domain, area, feats, svc), content, HashDict(content)))
  }

  /** `build_static_descriptor` */
  method BuildStaticDescriptor(state: Dict, block: Json) returns (r: Result<Descriptor>)
    ensures r == Describe(state, block)
  {
    var eid := Norm(Get(state, "entity_id", JNull));
    var attrsR := AttributesOf(state);
    if attrsR.Err? {
      return Err(attrsR.error);
    }
    var attrs := attrsR.value;
    var friendly := FriendlyOf(attrs, eid);
    var domain := DomainOf(eid);
    var area := AreaOf(attrs);
    var feats := DecodeSupportedFeatures(domain, attrs);
    var svc := ServiceNames(block);
    var content := BuildContent(eid, friendly, domain, area, feats, svc);
    var contentHash := HashDict(content);
    var text := DescriptorText(friendly, domain, area, feats, svc);
    r := Ok(Descriptor(text, content, contentHash));
  }

  /** The content dict, built key by key. */
  method BuildContent(eid: string, friendly: string, domain: string, area: string,
                      feats: seq<string>, svc: seq<string>) returns (content: Dict)
    ensures content == ContentOf(eid, friendly, domain, area, feats, svc)
  {
    content := [("entity_id", JStr(eid)), ("friendly_name", JStr(friendly)), ("domain", JStr(domain))];
    if area != "" {
      content := Set(content, "area", JStr(area));
    }
    if feats != [] {
      content := Set(content, "capabilities", StrList(feats));
    }
    if svc != [] {
      content := Set(content, "services", StrList(svc));
    }
  }

  lemma BaseContent(eid: string, friendly: string, domain: string)
    ensures var base := [("entity_id", JStr(eid)), ("friendly_name", JStr(friendly)), ("domain", JStr(domain))];
      && DistinctKeys(base)
      && Find(base, "entity_id") == Some(JStr(eid))
      && Find(base, "friendly_name") == Some(JStr(friendly))
      && Find(base, "domain") == Some(JStr(domain))
      && Find(base, "area") == None && Find(base, "capabilities") == None && Find(base, "services") == None
  {
    var base := [("entity_id", JStr(eid)), ("friendly_name", JStr(friendly)), ("domain", JStr(domain))];
    BaseKeys(base, eid, friendly, domain);
    FindTriple("entity_id", JStr(eid), "friendly_name", JStr(friendly), "domain", JStr(domain), "entity_id");
    FindTriple("entity_id", JStr(eid), "friendly_name", JStr(friendly), "domain", JStr(domain), "friendly_name");
    FindTriple("entity_id", JStr(eid), "friendly_name", JStr(friendly), "domain", JStr(domain), "domain");
    FindTriple("entity_id", JStr(eid), "friendly_name", JStr(friendly), "domain", JStr(domain), "area");
    FindTriple("entity_id", JStr(eid), "friendly_name", JStr(friendly), "domain", JStr(domain), "capabilities");
    FindTriple("entity_id", JStr(eid), "friendly_name", JStr(friendly), "domain", JStr(domain), "services");
  }

  lemma BaseKeys(base: Dict, eid: string, friendly: string, domain: string)
    requires base == [("entity_id", JStr(eid)), ("friendly_name", JStr(friendly)), ("domain", JStr(domain))]
    ensures DistinctKeys(base)
  {
    assert |"entity_id"| == 9 && |"friendly_name"| == 13 && |"domain"| == 6;
  }

  /** Lookup in a dict of three entries. */
  lemma FindTriple(k0: string, v0: Json, k1: string, v1: Json, k2: string, v2: Json, k: string)
    ensures Find([(k0, v0), (k1, v1), (k2, v2)], k) ==
      if k == k0 then Some(v0) else if k == k1 then Some(v1) else if k == k2 then Some(v2) else None
  {
    var d := [(k0, v0), (k1, v1), (k2, v2)];
    assert d[1..] == [(k1, v1), (k2, v2)];
    assert d[1..][1..] == [(k2, v2)];
    assert d[1..][1..][1..] == [];
  }

  lemma ContentShape(eid: string, friendly: string, domain: string, area: string,
                      feats: seq<string>, svc: seq<string>)
    ensures var c := ContentOf(eid, friendly, domain, area, feats, svc);
      && Find(c, "entity_id") == Some(JStr(eid))
      && Find(c, "friendly_name") == Some(JStr(friendly))
      && Find(c, "domain") == Some(JStr(domain))
      && (HasKey(c, "area") <==> area != "")
      && (HasKey(c, "capabilities") <==> feats != [])
      && (HasKey(c, "services") <==> svc != [])
      && DistinctKeys(c)
  {
    ContentBase(eid, friendly, domain, area, feats, svc);
    ContentOptional(eid, friendly, domain, area, feats, svc);
    ContentDistinct(eid, friendly, domain, area, feats, svc);
  }

  /** The three base entries survive the optional ones. */
  lemma ContentBase(eid: string, friendly: string, domain: string, area: string,
                    feats: seq<string>, svc: seq<string>)
    ensures var c := ContentOf(eid, friendly, domain, area, feats, svc);
      && Find(c, "entity_id") == Some(JStr(eid))
      && Find(c, "friendly_name") == Some(JStr(friendly))
      && Find(c, "domain") == Some(JStr(domain))
  {
    BaseContent(eid, friendly, domain);
    ContentFind(eid, friendly, domain, area, feats, svc, "entity_id");
    ContentFind(eid, friendly, domain, area, feats, svc, "friendly_name");
    ContentFind(eid, friendly, domain, area, feats, svc, "domain");
  }

  /** Each optional key is there exactly when its value is non-empty. */
  lemma ContentOptional(eid: string, friendly: string, domain: string, area: string,
                        feats: seq<string>, svc: seq<string>)
    ensures var c := ContentOf(eid, friendly, domain, area, feats, svc);
      && (Find(c, "area").Some? <==> area != "")
      && (Find(c, "capabilities").Some? <==> feats != [])
      && (Find(c, "services").Some? <==> svc != [])
  {
    BaseContent(eid, friendly, domain);
    ContentFind(eid, friendly, domain, area, feats, svc, "area");
    ContentFind(eid, friendly, domain, area, feats, svc, "capabilities");
    ContentFind(eid, friendly, domain, area, feats, svc, "services");
  }

  lemma ContentDistinct(eid: string, friendly: string, domain: string, area: string,
                        feats: seq<string>, svc: seq<string>)
    ensures DistinctKeys(ContentOf(eid, friendly, domain, area, feats, svc))
  {
    var base := [("entity_id", JStr(eid)), ("friendly_name", JStr(friendly)), ("domain", JStr(domain))];
    BaseKeys(base, eid, friendly, domain);
    var withArea := SetIf(base, area != "", "area", JStr(area));
    var withCaps := SetIf(withArea, feats != [], "capabilities", StrList(feats));
    SetIfDistinct(base, area != "", "area", JStr(area));
    SetIfDistinct(withArea, feats != [], "capabilities", StrList(feats));
    SetIfDistinct(withCaps, svc != [], "services", StrList(svc));
  }

  /** Lookup in the content: the optional keys, else the base entries. */
  lemma ContentFind(eid: string, friendly: string, domain: string, area: string,
                    feats: seq<string>, svc: seq<string>, k: string)
    ensures Find(ContentOf(eid, friendly, domain, area, feats, svc), k) ==
      if k == "services" && svc != [] then Some(StrList(svc))
      else if k == "capabilities" && feats != [] then Some(StrList(feats))
      else if k == "area" && area != "" then Some(JStr(area))
      else Find([("entity_id", JStr(eid)), ("friendly_name", JStr(friendly)), ("domain", JStr(domain))], k)
  {
    var base := [("entity_id", JStr(eid)), ("friendly_name", JStr(friendly)), ("domain", JStr(domain))];
    var withArea := SetIf(base, area != "", "area", JStr(area));
    var withCaps := SetIf(withArea, feats != [], "capabilities", StrList(feats));
    SetIfFind(base, area != "", "area", JStr(area), k);
    SetIfFind(withArea, feats != [], "capabilities", StrList(feats), k);
    SetIfFind(withCaps, svc != [], "services", StrList(svc), k);
  }

  /** The content always names the entity, its friendly name (falling back to
      the entity id) and its domain (the text before the first `.`); area,
      capabilities and services appear exactly when non-empty; no key twice;
      and the hash is the hash of that content. */
  lemma DescribeContent(state: Dict, block: Json)
    requires Describe(state, block).Ok?
    ensures var d := Describe(state, block).value;
      var eid := Norm(Get(state, "entity_id", JNull));
      var attrs := AttributesOf(state).value;
      var f := Norm(Get(attrs, "friendly_name", JNull));
      && Find(d.content, "entity_id") == Some(JStr(eid))
      && Find(d.content, "friendly_name") == Some(JStr(if f != "" then f else eid))
      && Find(d.content, "domain") == Some(JStr(if '.' in eid then SplitFirst(eid, '.').value.0 else ""))
      && (HasKey(d.content, "area") <==> AreaOf(attrs) != "")
      && (HasKey(d.content, "capabilities") <==> FeatureTags(DomainOf(eid), attrs) != [])
      && (HasKey(d.content, "services") <==> ServiceNames(block) != [])
      && DistinctKeys(d.content)
      && d.contentHash == HashDict(d.content)
  {
    var eid := Norm(Get(state, "entity_id", JNull));
    var attrs := AttributesOf(state).value;
    ContentShape(eid, FriendlyOf(attrs, eid), DomainOf(eid), AreaOf(attrs),
                 FeatureTags(DomainOf(eid), attrs), ServiceNames(block));
  }
}
