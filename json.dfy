/** The JavaScript values that the persistence layer parses, revives and stores. */
module Json {
  import opened Wrappers
  import opened Text

  /** 2 raised to `e`, for a negative `e` too. */
  function Pow2(e: int): (r: real)
    ensures r > 0.0
    decreases if e < 0 then -e else e
  {
    if e == 0 then 1.0 else if e > 0 then 2.0 * Pow2(e - 1) else Pow2(e + 1) / 2.0
  }

  /** The significand bound of IEEE 754 double precision, 2 to the 53rd. */
  const SIGNIFICAND_BOUND := 0x20_0000_0000_0000

  function Scaled(m: int, e: int): real {
    m as real * Pow2(e)
  }

  /** A finite IEEE 754 double: a significand below 2 to the 53rd in magnitude times a
      power of two from the subnormal exponent -1074 up to 971. */
  ghost predicate IsDouble(x: real) {
    x == 0.0
    || exists m: int, e: int {:trigger Scaled(m, e)} ::
         -SIGNIFICAND_BOUND < m < SIGNIFICAND_BOUND && -1074 <= e <= 971 && x == Scaled(m, e)
  }

  /** A JavaScript number; `NaN` and the infinities are not modelled (`JSON.stringify`
      writes them as `null`), and `-0` is `0`. */
  type Double = x: real | IsDouble(x) witness 0.0

  /** The range of an ECMAScript time value: 8.64e15 milliseconds either side of the epoch. */
  const MAX_TIME := 8_640_000_000_000_000

  type TimeValue = t: int | -MAX_TIME <= t <= MAX_TIME

  /** A time value as a number: every integer below 2 to the 53rd in magnitude is a double. */
  function TimeNumber(t: TimeValue): (r: Double)
    ensures r == t as real
  {
    assert Scaled(t, 0) == t as real;
    t as real
  }

  /** A JavaScript value as it comes out of `JSON.parse`, plus `undefined` and dates. */
  datatype Value =
    | Undefined
    | Null
    | Bool(b: bool)
    | Num(n: Double)
    | Str(s: string)
    | Arr(items: seq<Value>)
    | Obj(fields: map<string, Value>)
    | Date(source: Value)  // `new Date(source)`

  predicate IsNullish(v: Value) {
    v.Undefined? || v.Null?
  }

  /** JavaScript truthiness (`NaN` is not modelled). */
  predicate Truthy(v: Value) {
    match v
    case Undefined => false
    case Null => false
    case Bool(b) => b
    case Num(n) => n != 0.0
    case Str(s) => s != ""
    case _ => true
  }

  /** Reads the own property `key`. None of the property names the program reads is
      inherited by a parsed value, so anything but an object with that key yields
      `undefined`. */
  function Get(v: Value, key: string): Value {
    if v.Obj? && key in v.fields then v.fields[key] else Undefined
  }

  /** An error thrown inside a `try` block. */
  datatype Fault =
    | SyntaxError(message: string)  // thrown by `JSON.parse`
    | NullAccess(property: string)  // reading `property` of null or undefined
    | NotAFunction(property: string)  // calling `v.property(...)` on a value without that method

  /** `v.key`, which throws when `v` is null or undefined. */
  function Read(v: Value, key: string): (r: Result<Value, Fault>)
    ensures r.Failure? <==> IsNullish(v)
    ensures r.Success? ==> r.value == Get(v, key)
    ensures r.Failure? ==> r.error == NullAccess(key)
  {
    if IsNullish(v) then Failure(NullAccess(key)) else Success(Get(v, key))
  }

  /** The properties `{ ...v }` copies: an object's own fields, an array's elements
      and a string's characters under their decimal indices, nothing otherwise. */
  function Spread(v: Value): (r: map<string, Value>)
    ensures v.Obj? ==> r == v.fields
    ensures v.Arr? ==> forall i :: 0 <= i < |v.items| ==>
      DecimalString(i) in r && r[DecimalString(i)] == v.items[i]
    ensures !(v.Obj? || v.Arr? || v.Str?) ==> r == map[]
  {
    match v
    case Obj(fields) => fields
    case Arr(items) =>
      DecimalKeysInjective();
      map i | 0 <= i < |items| :: DecimalString(i) := items[i]
    case Str(s) =>
      DecimalKeysInjective();
      map i | 0 <= i < |s| :: DecimalString(i) := Str([s[i]])
    case _ => map[]
  }

  lemma DecimalKeysInjective()
    ensures forall m: nat, n: nat :: DecimalString(m) == DecimalString(n) ==> m == n
  {
    forall m: nat, n: nat | DecimalString(m) == DecimalString(n) ensures m == n {
      if m != n {
        DecimalStringInjective(m, n);
      }
    }
  }

  // ---------------------------------------------------------------------------
  // The date reviver: `/^\d{4}-\d{2}-\d{2}T\d{2}:\d{2}:\d{2}/.test(value)`

  /** One position of an anchored regular expression made of `\d` and literals. */
  datatype Token = Digit | Lit(c: char)

  predicate IsDigit(c: char) {
    '0' <= c <= '9'
  }

  predicate Accepts(t: Token, c: char) {
    match t
    case Digit => IsDigit(c)
    case Lit(x) => c == x
  }

  /** The pattern matches a prefix of `s` (the expression is anchored only at the start). */
  function MatchesPrefix(p: seq<Token>, s: string): (r: bool)
    ensures r <==> |p| <= |s| && forall i :: 0 <= i < |p| ==> Accepts(p[i], s[i])
  {
    if p == [] then true
    else s != [] && Accepts(p[0], s[0]) && MatchesPrefix(p[1..], s[1..])
  }

  const DATE_TIME_PREFIX: seq<Token> := [
    Digit, Digit, Digit, Digit, Lit('-'), Digit, Digit, Lit('-'), Digit, Digit,
    Lit('T'), Digit, Digit, Lit(':'), Digit, Digit, Lit(':'), Digit, Digit]

  /** The reviver's test: the text starts with `dddd-dd-ddTdd:dd:dd`. */
  predicate IsDateText(s: string) {
    MatchesPrefix(DATE_TIME_PREFIX, s)
  }

  predicate DigitsAt(s: string, i: nat, n: nat)
    requires i + n <= |s|
  {
    forall k :: i <= k < i + n ==> IsDigit(s[k])
  }

  /** The reviver's test, position by position. */
  lemma DateTextShape(s: string)
    ensures IsDateText(s) <==>
      |s| >= 19 && DigitsAt(s, 0, 4) && s[4] == '-' && DigitsAt(s, 5, 2) && s[7] == '-'
      && DigitsAt(s, 8, 2) && s[10] == 'T' && DigitsAt(s, 11, 2) && s[13] == ':'
      && DigitsAt(s, 14, 2) && s[16] == ':' && DigitsAt(s, 17, 2)
  {
    if |s| >= 19 {
      var p := DATE_TIME_PREFIX;
      assert forall i :: 0 <= i < 19 ==> (p[i].Digit? <==> i !in {4, 7, 10, 13, 16});
    }
  }

  /** Anything may follow the matched prefix: `toISOString()` output with milliseconds and
      a zone suffix is revived. */
  lemma DateTextExtends(s: string, tail: string)
    requires IsDateText(s)
    ensures IsDateText(s + tail)
  {
    assert forall i :: 0 <= i < |s| ==> (s + tail)[i] == s[i];
  }

  /**
   * Every `toISOString()` text is revived: four digits of year, two each of
   * month, day, hour, minute and second with their separators, then anything
   * (milliseconds and the zone).
   */
  lemma IsoTextIsDate(y: string, mo: string, d: string, h: string, mi: string, sec: string, tail: string)
    requires |y| == 4 && |mo| == 2 && |d| == 2 && |h| == 2 && |mi| == 2 && |sec| == 2
    requires DigitsAt(y, 0, 4) && DigitsAt(mo, 0, 2) && DigitsAt(d, 0, 2)
    requires DigitsAt(h, 0, 2) && DigitsAt(mi, 0, 2) && DigitsAt(sec, 0, 2)
    ensures IsDateText(y + "-" + mo + "-" + d + "T" + h + ":" + mi + ":" + sec + tail)
  {
    var s := y + "-" + mo + "-" + d + "T" + h + ":" + mi + ":" + sec + tail;
    var p := DATE_TIME_PREFIX;
    forall i | 0 <= i < 19
      ensures Accepts(p[i], s[i])
    {
      if i < 4 { assert s[i] == y[i]; }
      else if i == 4 { assert s[i] == '-'; }
      else if i < 7 { assert s[i] == mo[i - 5]; }
      else if i == 7 { assert s[i] == '-'; }
      else if i < 10 { assert s[i] == d[i - 8]; }
      else if i == 10 { assert s[i] == 'T'; }
      else if i < 13 { assert s[i] == h[i - 11]; }
      else if i == 13 { assert s[i] == ':'; }
      else if i < 16 { assert s[i] == mi[i - 14]; }
      else if i == 16 { assert s[i] == ':'; }
      else { assert s[i] == sec[i - 17]; }
    }
  }

  /** A bare date is too short to be revived. */
  lemma BareDateIsNotDate()
    ensures !IsDateText("2024-03-01")
  {
    assert |"2024-03-01"| < |DATE_TIME_PREFIX|;
  }

  /** A date written with slashes is not revived. */
  lemma SlashDateIsNotDate()
    ensures !IsDateText("2024/03/01T09:30:00")
  {
    assert !Accepts(DATE_TIME_PREFIX[4], "2024/03/01T09:30:00"[4]);
  }

  /** The reviver applied by `JSON.parse` to every value, innermost first. */
  function Revive(v: Value): Value {
    match v
    case Str(s) => if IsDateText(s) then Date(v) else v
    case Arr(items) => Arr(seq(|items|, i requires 0 <= i < |items| => Revive(items[i])))
    case Obj(fields) => Obj(map k | k in fields :: Revive(fields[k]))
    case _ => v
  }

  /** The value holds no date. `JSON.parse` never produces one. */
  predicate DateFree(v: Value) {
    match v
    case Date(_) => false
    case Arr(items) => forall i :: 0 <= i < |items| ==> DateFree(items[i])
    case Obj(fields) => forall k :: k in fields ==> DateFree(fields[k])
    case _ => true
  }

  /** The value holds no string that the reviver would turn into a date. */
  predicate NoDateText(v: Value) {
    match v
    case Str(s) => !IsDateText(s)
    case Arr(items) => forall i :: 0 <= i < |items| ==> NoDateText(items[i])
    case Obj(fields) => forall k :: k in fields ==> NoDateText(fields[k])
    case _ => true
  }

  /** Turns every revived date back into the text it came from. */
  function Unrevive(v: Value): Value {
    match v
    case Date(Str(s)) => Str(s)
    case Arr(items) => Arr(seq(|items|, i requires 0 <= i < |items| => Unrevive(items[i])))
    case Obj(fields) => Obj(map k | k in fields :: Unrevive(fields[k]))
    case _ => v
  }

  /** The reviver only wraps strings: undoing the wrapping gives the parsed value back. */
  lemma {:induction false} ReviveRoundTrip(v: Value)
    requires DateFree(v)
    ensures Unrevive(Revive(v)) == v
  {
    match v
    case Arr(items) =>
      var r := Unrevive(Revive(v));
      forall i | 0 <= i < |items| ensures r.items[i] == items[i] {
        ReviveRoundTrip(items[i]);
      }
    case Obj(fields) =>
      var r := Unrevive(Revive(v));
      forall k | k in fields ensures r.fields[k] == fields[k] {
        ReviveRoundTrip(fields[k]);
      }
    case _ =>
  }

  /** After reviving, no string at any depth still looks like a date. */
  lemma {:induction false} ReviveLeavesNoDateText(v: Value)
    ensures NoDateText(Revive(v))
  {
    match v
    case Arr(items) =>
      forall i | 0 <= i < |items| ensures NoDateText(Revive(items[i])) {
        ReviveLeavesNoDateText(items[i]);
      }
    case Obj(fields) =>
      forall k | k in fields ensures NoDateText(Revive(fields[k])) {
        ReviveLeavesNoDateText(fields[k]);
      }
    case _ =>
  }

  /** Reviving a revived value changes nothing. */
  lemma {:induction false} ReviveIdempotent(v: Value)
    ensures Revive(Revive(v)) == Revive(v)
  {
    match v
    case Arr(items) =>
      var once := Revive(v);
      forall i | 0 <= i < |items| ensures Revive(once.items[i]) == once.items[i] {
        ReviveIdempotent(items[i]);
      }
    case Obj(fields) =>
      var once := Revive(v);
      forall k | k in fields ensures Revive(once.fields[k]) == once.fields[k] {
        ReviveIdempotent(fields[k]);
      }
    case _ =>
  }

  // ---------------------------------------------------------------------------
  // JSON text

  /** `JSON.parse` and `JSON.stringify`, which the model does not define, and the texts
      of the errors the engine throws. */
  datatype Codec = Codec(
    parse: string -> Result<Value, Fault>,
    stringify: Value -> string,
    dateJson: Value -> Value,  // `new Date(source).toJSON()`: its ISO text, or null when invalid
    typeErrorText: Fault -> string)

  /** `error.message` of a caught fault. */
  function ErrorMessage(c: Codec, f: Fault): string {
    match f
    case SyntaxError(m) => m
    case _ => c.typeErrorText(f)
  }

  /** The value `JSON.stringify` writes out: dates become their JSON text, `undefined`
      fields are dropped and `undefined` elements become `null`. */
  function Jsonify(c: Codec, v: Value): Value {
    match v
    case Date(x) => c.dateJson(x)
    case Arr(items) =>
      Arr(seq(|items|, i requires 0 <= i < |items| => if items[i].Undefined? then Null else Jsonify(c, items[i])))
    case Obj(fields) => Obj(map k | k in fields && !fields[k].Undefined? :: Jsonify(c, fields[k]))
    case _ => v
  }

  /** `JSON.parse` reads back what `JSON.stringify` writes: the text written for a value
      other than `undefined` is not empty, and parsing it gives the written value. */
  ghost predicate ParseInvertsStringify(c: Codec) {
    forall v: Value {:trigger c.stringify(v)} :: !v.Undefined? ==>
      c.stringify(v) != "" && c.parse(c.stringify(v)) == Success(Jsonify(c, v))
  }

  /** `toJSON` of a date gives its ISO text, or `null` for an invalid date. */
  ghost predicate DatesWriteAsText(c: Codec) {
    forall x: Value {:trigger c.dateJson(x)} :: c.dateJson(x).Str? || c.dateJson(x).Null?
  }

  /** The laws of JSON the model relies on. */
  ghost predicate RoundTrips(c: Codec) {
    ParseInvertsStringify(c) && DatesWriteAsText(c)
  }

  /** `JSON.parse(text, reviver)` with the date reviver. */
  function ParseRevived(c: Codec, text: string): (r: Result<Value, Fault>)
    ensures c.parse(text).Failure? ==> r == c.parse(text)
    ensures c.parse(text).Success? ==> r == Success(Revive(c.parse(text).value))
  {
    match c.parse(text)
    case Success(v) => Success(Revive(v))
    case Failure(e) => Failure(e)
  }

  /** What is written by `JSON.stringify` holds no date, so reading it back with the reviver
      gives exactly the written value with its date texts revived. */
  lemma WrittenValueReadsBack(c: Codec, v: Value)
    requires RoundTrips(c) && !v.Undefined?
    ensures ParseRevived(c, c.stringify(v)) == Success(Revive(Jsonify(c, v)))
    ensures DateFree(Jsonify(c, v))
  {
    JsonifyDateFree(c, v);
  }

  lemma {:induction false} JsonifyDateFree(c: Codec, v: Value)
    requires DatesWriteAsText(c)
    ensures DateFree(Jsonify(c, v))
  {
    match v
    case Date(x) =>
      assert c.dateJson(x).Str? || c.dateJson(x).Null?;
    case Arr(items) =>
      var r := Jsonify(c, v);
      forall i | 0 <= i < |items| ensures DateFree(r.items[i]) {
        JsonifyDateFree(c, items[i]);
      }
    case Obj(fields) =>
      var r := Jsonify(c, v);
      forall k | k in r.fields ensures DateFree(r.fields[k]) {
        JsonifyDateFree(c, fields[k]);
      }
    case _ =>
  }

  /** A value JSON carries unchanged: no date, no `undefined` and no text the reviver would
      turn into a date, at any depth. */
  predicate Plain(v: Value) {
    match v
    case Undefined => false
    case Date(_) => false
    case Str(s) => !IsDateText(s)
    case Arr(items) => forall i :: 0 <= i < |items| ==> Plain(items[i])
    case Obj(fields) => forall k :: k in fields ==> Plain(fields[k])
    case _ => true
  }

  /** Writing a plain value and reviving it changes nothing. */
  lemma {:induction false} PlainSurvivesJson(c: Codec, v: Value)
    requires Plain(v)
    ensures Jsonify(c, v) == v && Revive(v) == v
  {
    match v
    case Arr(items) =>
      var j := Jsonify(c, v);
      var r := Revive(v);
      forall i | 0 <= i < |items| ensures j.items[i] == items[i] && r.items[i] == items[i] {
        PlainSurvivesJson(c, items[i]);
      }
    case Obj(fields) =>
      var j := Jsonify(c, v);
      var r := Revive(v);
      forall k | k in fields ensures j.fields[k] == fields[k] && r.fields[k] == fields[k] {
        PlainSurvivesJson(c, fields[k]);
      }
      assert j.fields == fields;
      assert r.fields == fields;
    case _ =>
  }
}
