/**
 * A codec that meets the laws of JSON the model assumes, so that the
 * lemmas requiring `RoundTrips` do not hold vacuously. `stringify` writes
 * a self-delimiting code of the value `JSON.stringify` writes, and `parse`
 * reads a code back by choosing the value it codes.
 */
module JsonCodec {
  import opened Wrappers
  import opened Json

  /** `n` ones and a zero: a count that says where it ends. */
  function Unary(n: nat): (r: string)
    ensures |r| == n + 1 && r[n] == '0'
    ensures forall i :: 0 <= i < n ==> r[i] == '1'
  {
    if n == 0 then "0" else "1" + Unary(n - 1)
  }

  lemma Assoc(x: string, y: string, z: string)
    ensures (x + y) + z == x + (y + z)
  {
  }

  /** Two joins whose first parts have the same length split the same way. */
  lemma SplitAt(x: string, y: string, s: string, t: string)
    requires |x| == |y| && x + s == y + t
    ensures x == y && s == t
  {
    assert x == (x + s)[..|x|] && y == (y + t)[..|y|];
    assert s == (x + s)[|x|..] && t == (y + t)[|y|..];
  }

  lemma {:induction false} UnaryPrefix(n: nat, m: nat, s: string, t: string)
    requires Unary(n) + s == Unary(m) + t
    ensures n == m && s == t
    decreases n
  {
    if n == 0 || m == 0 {
      assert (Unary(n) + s)[0] == Unary(n)[0] && (Unary(m) + t)[0] == Unary(m)[0];
      SplitAt(Unary(n), Unary(m), s, t);
    } else {
      Assoc("1", Unary(n - 1), s);
      Assoc("1", Unary(m - 1), t);
      SplitAt("1", "1", Unary(n - 1) + s, Unary(m - 1) + t);
      UnaryPrefix(n - 1, m - 1, s, t);
    }
  }

  function IntCode(i: int): string {
    if i < 0 then "-" + Unary(-i) else "+" + Unary(i)
  }

  lemma IntCodePrefix(i: int, j: int, s: string, t: string)
    requires IntCode(i) + s == IntCode(j) + t
    ensures i == j && s == t
  {
    var a := if i < 0 then -i else i;
    var b := if j < 0 then -j else j;
    var x := if i < 0 then "-" else "+";
    var y := if j < 0 then "-" else "+";
    Assoc(x, Unary(a), s);
    Assoc(y, Unary(b), t);
    SplitAt(x, y, Unary(a) + s, Unary(b) + t);
    UnaryPrefix(a, b, s, t);
  }

  /** A text preceded by its length. */
  function TextCode(s: string): string {
    Unary(|s|) + s
  }

  lemma TextCodePrefix(a: string, b: string, s: string, t: string)
    requires TextCode(a) + s == TextCode(b) + t
    ensures a == b && s == t
  {
    Assoc(Unary(|a|), a, s);
    Assoc(Unary(|b|), b, t);
    UnaryPrefix(|a|, |b|, a + s, b + t);
    SplitAt(a, b, s, t);
  }

  function Flatten(xs: seq<string>): string {
    if xs == [] then "" else xs[0] + Flatten(xs[1..])
  }

  /** Pieces of a prefix-free code, joined, can be told apart again. */
  ghost predicate PrefixFree(x: string, y: string) {
    forall s: string, t: string {:trigger x + s, y + t} :: x + s == y + t ==> x == y && s == t
  }

  lemma {:induction false} FlattenPrefix(xs: seq<string>, ys: seq<string>, s: string, t: string)
    requires |xs| == |ys|
    requires forall i :: 0 <= i < |xs| ==> PrefixFree(xs[i], ys[i])
    requires Flatten(xs) + s == Flatten(ys) + t
    ensures xs == ys && s == t
  {
    if xs == [] {
      SplitAt("", "", s, t);
    } else {
      Assoc(xs[0], Flatten(xs[1..]), s);
      Assoc(ys[0], Flatten(ys[1..]), t);
      assert PrefixFree(xs[0], ys[0]);
      assert xs[0] == ys[0] && Flatten(xs[1..]) + s == Flatten(ys[1..]) + t;
      forall i | 0 <= i < |xs[1..]| ensures PrefixFree(xs[1..][i], ys[1..][i]) {
        assert PrefixFree(xs[i + 1], ys[i + 1]);
      }
      FlattenPrefix(xs[1..], ys[1..], s, t);
      assert xs == [xs[0]] + xs[1..] && ys == [ys[0]] + ys[1..];
    }
  }

  /** A count of pieces, then the pieces, each prefix-free against its partner. */
  lemma CountedPrefix(xs: seq<string>, ys: seq<string>, s: string, t: string)
    requires Unary(|xs|) + Flatten(xs) + s == Unary(|ys|) + Flatten(ys) + t
    requires forall i :: 0 <= i < |xs| && i < |ys| ==> PrefixFree(xs[i], ys[i])
    ensures xs == ys && s == t
  {
    Assoc(Unary(|xs|), Flatten(xs), s);
    Assoc(Unary(|ys|), Flatten(ys), t);
    UnaryPrefix(|xs|, |ys|, Flatten(xs) + s, Flatten(ys) + t);
    FlattenPrefix(xs, ys, s, t);
  }

  /** A significand and exponent of a number. */
  ghost function Parts(x: Double): (r: (int, int))
    ensures Scaled(r.0, r.1) == x
  {
    assert IsDouble(x);
    if x == 0.0 then
      assert Scaled(0, 0) == 0.0;
      (0, 0)
    else
      var m: int, e: int :| Scaled(m, e) == x; (m, e)
  }

  /** The keys of an object, each once. */
  ghost function Keys(fields: map<string, Value>): (r: seq<string>)
    ensures forall i :: 0 <= i < |r| ==> r[i] in fields
    ensures forall k :: k in fields ==> k in r
    decreases fields.Keys
  {
    if fields == map[] then []
    else
      var k :| k in fields;
      [k] + Keys(fields - {k})
  }

  /** The first character of a value's code: which kind of value it is. */
  function Tag(v: Value): char {
    match v
    case Undefined => 'u'
    case Null => 'n'
    case Bool(b) => if b then 't' else 'f'
    case Num(_) => 'd'
    case Str(_) => 's'
    case Arr(_) => 'a'
    case Obj(_) => 'o'
    case Date(_) => 'D'
  }

  /** A self-delimiting code of a value: its tag, then its parts. */
  ghost function Code(v: Value): string
    decreases v, 1
  {
    [Tag(v)] + Body(v)
  }

  ghost function Body(v: Value): string
    decreases v, 0
  {
    match v
    case Num(x) => IntCode(Parts(x).0) + IntCode(Parts(x).1)
    case Str(s) => TextCode(s)
    case Arr(items) => Unary(|items|) + Flatten(seq(|items|, i requires 0 <= i < |items| => Code(items[i])))
    case Obj(fields) =>
      var keys := Keys(fields);
      Unary(|keys|) + Flatten(seq(|keys|, i requires 0 <= i < |keys| => TextCode(keys[i]) + Code(fields[keys[i]])))
    case Date(x) => Code(x)
    case _ => ""
  }

  /** Two codes that agree with their tails have the same tag and agreeing bodies. */
  lemma TagSplit(a: Value, b: Value, s: string, t: string)
    requires Code(a) + s == Code(b) + t
    ensures Tag(a) == Tag(b) && Body(a) + s == Body(b) + t
  {
    Assoc([Tag(a)], Body(a), s);
    Assoc([Tag(b)], Body(b), t);
    SplitAt([Tag(a)], [Tag(b)], Body(a) + s, Body(b) + t);
  }

  /** The code of a value is prefix-free against the code of every value. */
  ghost predicate CodeIsPrefixFree(a: Value) {
    forall b: Value :: PrefixFree(Code(a), Code(b))
  }

  lemma CodePrefix(a: Value)
    ensures CodeIsPrefixFree(a)
  {
    forall b: Value ensures PrefixFree(Code(a), Code(b)) {
      CodePrefixItem(a, b);
    }
  }

  lemma {:induction false} CodePrefixAt(a: Value, b: Value, s: string, t: string)
    requires Code(a) + s == Code(b) + t
    ensures a == b && s == t
    decreases a, 3
  {
    TagSplit(a, b, s, t);
    match a
    case Undefined => SplitAt("", "", s, t);
    case Null => SplitAt("", "", s, t);
    case Bool(_) => SplitAt("", "", s, t);
    case Num(x) =>
      var y := b.n;
      Assoc(IntCode(Parts(x).0), IntCode(Parts(x).1), s);
      Assoc(IntCode(Parts(y).0), IntCode(Parts(y).1), t);
      IntCodePrefix(Parts(x).0, Parts(y).0, IntCode(Parts(x).1) + s, IntCode(Parts(y).1) + t);
      IntCodePrefix(Parts(x).1, Parts(y).1, s, t);
    case Str(x) =>
      TextCodePrefix(x, b.s, s, t);
    case Date(x) =>
      CodePrefixAt(x, b.source, s, t);
    case Arr(_) =>
      ArrPrefix(a, b, s, t);
    case Obj(_) =>
      ObjPrefix(a, b, s, t);
  }

  lemma {:induction false} ArrPrefix(a: Value, b: Value, s: string, t: string)
    requires a.Arr? && b.Arr? && Body(a) + s == Body(b) + t
    ensures a == b && s == t
    decreases a, 2
  {
    var items := a.items;
    var others := b.items;
    var xs := seq(|items|, i requires 0 <= i < |items| => Code(items[i]));
    var ys := seq(|others|, i requires 0 <= i < |others| => Code(others[i]));
    forall i | 0 <= i < |xs| && i < |ys| ensures PrefixFree(xs[i], ys[i]) {
      CodePrefixItem(items[i], others[i]);
    }
    CountedPrefix(xs, ys, s, t);
    forall i | 0 <= i < |items| ensures items[i] == others[i] {
      assert Code(items[i]) + "" == Code(others[i]) + "" by {
        assert xs[i] == ys[i];
      }
      CodePrefixAt(items[i], others[i], "", "");
    }
  }

  lemma {:induction false} ObjPrefix(a: Value, b: Value, s: string, t: string)
    requires a.Obj? && b.Obj? && Body(a) + s == Body(b) + t
    ensures a == b && s == t
    decreases a, 2
  {
    var fields := a.fields;
    var others := b.fields;
    var keys := Keys(fields);
    var otherKeys := Keys(others);
    var xs := seq(|keys|, i requires 0 <= i < |keys| => TextCode(keys[i]) + Code(fields[keys[i]]));
    var ys := seq(|otherKeys|, i requires 0 <= i < |otherKeys| => TextCode(otherKeys[i]) + Code(others[otherKeys[i]]));
    forall i | 0 <= i < |xs| && i < |ys| ensures PrefixFree(xs[i], ys[i]) {
      CodePrefixField(keys[i], fields[keys[i]], otherKeys[i], others[otherKeys[i]]);
    }
    CountedPrefix(xs, ys, s, t);
    assert |keys| == |otherKeys|;
    forall i | 0 <= i < |keys| ensures keys[i] == otherKeys[i] && fields[keys[i]] == others[keys[i]] {
      assert xs[i] == ys[i];
      CodePrefixField(keys[i], fields[keys[i]], otherKeys[i], others[otherKeys[i]]);
    }
    SameFields(fields, others, keys, otherKeys);
  }

  /** Two objects whose key lists agree, with the same value under each key, are equal. */
  lemma SameFields(fields: map<string, Value>, others: map<string, Value>, keys: seq<string>, otherKeys: seq<string>)
    requires keys == otherKeys
    requires forall k :: k in fields ==> k in keys
    requires forall k :: k in others ==> k in otherKeys
    requires forall i :: 0 <= i < |keys| ==> keys[i] in fields && otherKeys[i] in others
    requires forall i :: 0 <= i < |keys| ==> fields[keys[i]] == others[keys[i]]
    ensures fields == others
  {
    assert fields.Keys == others.Keys;
  }

  /** One element of an array, smaller than the array it sits in. */
  lemma CodePrefixItem(a: Value, b: Value)
    ensures PrefixFree(Code(a), Code(b))
    decreases a, 4
  {
    forall s: string, t: string | Code(a) + s == Code(b) + t ensures Code(a) == Code(b) && s == t {
      CodePrefixAt(a, b, s, t);
    }
  }

  /** One field of an object: its key, then its value. */
  lemma CodePrefixField(k: string, a: Value, l: string, b: Value)
    ensures PrefixFree(TextCode(k) + Code(a), TextCode(l) + Code(b))
    ensures TextCode(k) + Code(a) == TextCode(l) + Code(b) ==> k == l && a == b
    decreases a, 4
  {
    forall s: string, t: string | (TextCode(k) + Code(a)) + s == (TextCode(l) + Code(b)) + t
      ensures TextCode(k) + Code(a) == TextCode(l) + Code(b) && s == t
    {
      Assoc(TextCode(k), Code(a), s);
      Assoc(TextCode(l), Code(b), t);
      TextCodePrefix(k, l, Code(a) + s, Code(b) + t);
      CodePrefixAt(a, b, s, t);
    }
    if TextCode(k) + Code(a) == TextCode(l) + Code(b) {
      assert TextCode(k) + (Code(a) + "") == TextCode(l) + (Code(b) + "") by {
        assert Code(a) + "" == Code(a) && Code(b) + "" == Code(b);
      }
      TextCodePrefix(k, l, Code(a) + "", Code(b) + "");
      CodePrefixAt(a, b, "", "");
    }
  }

  /** `JSON.stringify` writes every date as `null` here, as it does an invalid date. */
  const NullDates: Value -> Value := x => Null

  /** A codec that only fixes how dates are written; `Jsonify` reads nothing else of it. */
  const DatesOnly := Codec(text => Failure(SyntaxError("")), v => "", NullDates, f => "")

  /** `Jsonify` reads a codec only for its dates. */
  lemma {:induction false} JsonifyUsesOnlyDates(c: Codec, d: Codec, v: Value)
    requires c.dateJson == d.dateJson
    ensures Jsonify(c, v) == Jsonify(d, v)
  {
    match v
    case Arr(items) =>
      forall i | 0 <= i < |items| ensures Jsonify(c, items[i]) == Jsonify(d, items[i]) {
        JsonifyUsesOnlyDates(c, d, items[i]);
      }
    case Obj(fields) =>
      forall k | k in fields ensures Jsonify(c, fields[k]) == Jsonify(d, fields[k]) {
        JsonifyUsesOnlyDates(c, d, fields[k]);
      }
    case _ =>
  }

  /** The text written for a value: the code of the value `JSON.stringify` writes. */
  ghost function Write(v: Value): (r: string)
    ensures r != ""
  {
    Code(Jsonify(DatesOnly, v))
  }

  /** Reading a text: the written value whose code it is, or a syntax error. */
  ghost function Read(text: string): (r: Result<Value, Fault>)
    ensures (exists v: Value :: !v.Undefined? && Write(v) == text) ==> r.Success?
    ensures r.Success? ==> Code(r.value) == text
  {
    if exists v: Value :: !v.Undefined? && Write(v) == text then
      var v: Value :| !v.Undefined? && Write(v) == text;
      Success(Jsonify(DatesOnly, v))
    else
      Failure(SyntaxError("Unexpected token"))
  }

  ghost const CodeCodec := Codec(text => Read(text), v => Write(v), NullDates, f => "")

  /** The laws of JSON the model assumes can all be met at once. */
  lemma CodeCodecRoundTrips()
    ensures RoundTrips(CodeCodec)
  {
    var c := CodeCodec;
    forall v: Value | !v.Undefined?
      ensures c.stringify(v) != "" && c.parse(c.stringify(v)) == Success(Jsonify(c, v))
    {
      JsonifyUsesOnlyDates(c, DatesOnly, v);
      var r := Read(Write(v));
      assert r.Success?;
      assert Code(r.value) + "" == Code(Jsonify(DatesOnly, v)) + "";
      CodePrefixAt(r.value, Jsonify(DatesOnly, v), "", "");
    }
  }
}
