/**
 * JavaScript values as the front end sees the backend's JSON records, and the
 * handful of JavaScript operators and string methods the screens apply to them.
 *
 * Numbers are integers (fractional costs are outside the model) and NaN is a
 * value of its own. Nullish (`??`, `?.`) and falsy (`x ? … : …`, `!x`, `||`)
 * are different notions and are kept apart: 0, NaN, false and "" are falsy but
 * not nullish.
 */
module Js {

  datatype JsValue =
    | Undefined
    | Null
    | Bool(b: bool)
    | Num(n: int)
    | NaN
    | Str(s: string)
    | Arr(items: seq<JsValue>)
    | Obj(fields: map<string, JsValue>)

  /** A plain object as it arrives from the backend; an absent key reads as undefined. */
  type Record = map<string, JsValue>

  // ---------------------------------------------------------------------------
  // Nullishness, truthiness, `??`, property access

  /** `v === null || v === undefined`: the only values `??` and `?.` skip. */
  predicate Nullish(v: JsValue) {
    v.Undefined? || v.Null?
  }

  /** JavaScript's ToBoolean. */
  predicate Truthy(v: JsValue) {
    match v
    case Undefined => false
    case Null => false
    case Bool(b) => b
    case Num(n) => n != 0
    case NaN => false
    case Str(s) => s != ""
    case Arr(_) => true
    case Obj(_) => true
  }

  /** `a ?? b` */
  function Coalesce(a: JsValue, b: JsValue): JsValue {
    if Nullish(a) then b else a
  }

  /** `vs[0] ?? vs[1] ?? … ?? d`: one of the candidates or the default, and a
      candidate only when it is present. */
  function Chain(vs: seq<JsValue>, d: JsValue): (r: JsValue)
    ensures r == d || r in vs
    ensures r != d ==> !Nullish(r)
  {
    if vs == [] then d else Coalesce(vs[0], Chain(vs[1..], d))
  }

  /** `r` is the first non-nullish value of `vs`, or `d` when all of them are nullish. */
  ghost predicate IsFirstPresent(vs: seq<JsValue>, d: JsValue, r: JsValue) {
    || (exists i :: 0 <= i < |vs| && !Nullish(vs[i]) && r == vs[i] &&
                    forall j :: 0 <= j < i ==> Nullish(vs[j]))
    || ((forall j :: 0 <= j < |vs| ==> Nullish(vs[j])) && r == d)
  }

  /** A `??` chain yields the first value that is neither null nor undefined. */
  lemma {:induction false} ChainIsFirstPresent(vs: seq<JsValue>, d: JsValue)
    ensures IsFirstPresent(vs, d, Chain(vs, d))
  {
    if vs != [] {
      ChainIsFirstPresent(vs[1..], d);
      if Nullish(vs[0]) {
        var r := Chain(vs[1..], d);
        if exists i :: 0 <= i < |vs[1..]| && !Nullish(vs[1..][i]) && r == vs[1..][i] &&
                       forall j :: 0 <= j < i ==> Nullish(vs[1..][j]) {
          var i :| 0 <= i < |vs[1..]| && !Nullish(vs[1..][i]) && r == vs[1..][i] &&
                   forall j :: 0 <= j < i ==> Nullish(vs[1..][j]);
          assert forall j :: 0 <= j < i + 1 ==> Nullish(vs[j]) by {
            forall j | 0 <= j < i + 1 ensures Nullish(vs[j]) {
              if j > 0 { assert vs[j] == vs[1..][j - 1]; }
            }
          }
        } else {
          assert forall j :: 0 <= j < |vs| ==> Nullish(vs[j]) by {
            forall j | 0 <= j < |vs| ensures Nullish(vs[j]) {
              if j > 0 { assert vs[j] == vs[1..][j - 1]; }
            }
          }
        }
      }
    }
  }

  /** `(a ?? b) ?? d`, as JavaScript groups it, is the chain of `a` and `b` with default `d`. */
  lemma ChainPair(a: JsValue, b: JsValue, d: JsValue)
    ensures Chain([a, b], d) == Coalesce(Coalesce(a, b), d) == Coalesce(a, Coalesce(b, d))
  {
    assert [a, b][1..] == [b];
    assert [b][1..] == [];
    assert Chain([b], d) == Coalesce(b, Chain([], d));
    assert Chain([a, b], d) == Coalesce(a, Chain([b], d));
  }

  /** A non-nullish default makes a `??` chain non-nullish. */
  lemma {:induction false} ChainPresent(vs: seq<JsValue>, d: JsValue)
    requires !Nullish(d)
    ensures !Nullish(Chain(vs, d))
  {
    if vs != [] { ChainPresent(vs[1..], d); }
  }

  /** `r.k` on a plain object. */
  function Prop(r: Record, k: string): JsValue {
    if k in r then r[k] else Undefined
  }

  /** `v?.k`: undefined unless `v` is an object. */
  function Field(v: JsValue, k: string): JsValue {
    if v.Obj? then Prop(v.fields, k) else Undefined
  }

  /** `{ ...v }` for a plain object: its fields. Anything else gives no fields
      here; for an array or a string that differs from JavaScript, which would
      spread its elements or characters under index keys, but no screen spreads
      either. */
  function Spread(v: JsValue): Record {
    if v.Obj? then v.fields else map[]
  }

  /** `a === b`. NaN equals nothing; objects and arrays are compared by value. */
  predicate StrictEquals(a: JsValue, b: JsValue)
    ensures StrictEquals(a, b) ==> a == b && !b.NaN?
    ensures a == b ==> (StrictEquals(a, b) <==> !a.NaN?)
  {
    !a.NaN? && !b.NaN? && a == b
  }

  // ---------------------------------------------------------------------------
  // Strings

  function LowerChar(c: char): char {
    if 'A' <= c <= 'Z' then (c as int + ('a' as int - 'A' as int)) as char else c
  }

  /** `s.toLowerCase()` over ASCII letters. */
  function Lower(s: string): (r: string)
    ensures |r| == |s|
    ensures forall i :: 0 <= i < |s| ==> r[i] == LowerChar(s[i])
  {
    if s == [] then [] else [LowerChar(s[0])] + Lower(s[1..])
  }

  /** Lowercasing twice is lowercasing once. */
  lemma LowerIdempotent(s: string)
    ensures Lower(Lower(s)) == Lower(s)
  {
  }

  /** The white space `String.prototype.trim` removes (ASCII, NBSP, BOM). */
  predicate IsSpace(c: char) {
    c == ' ' || c == '\t' || c == '\n' || c == '\r' || c == '\U{000B}' || c == '\U{000C}' ||
    c == '\U{00A0}' || c == '\U{FEFF}'
  }

  /** The length of the white-space prefix of `s`. */
  function LeadingSpaces(s: string): (n: nat)
    ensures n <= |s|
    ensures forall k :: 0 <= k < n ==> IsSpace(s[k])
    ensures n < |s| ==> !IsSpace(s[n])
  {
    if s == [] || !IsSpace(s[0]) then 0 else 1 + LeadingSpaces(s[1..])
  }

  /** Where the white-space suffix of `s` starts. */
  function TrailingStart(s: string): (n: nat)
    ensures n <= |s|
    ensures forall k :: n <= k < |s| ==> IsSpace(s[k])
    ensures n > 0 ==> !IsSpace(s[n - 1])
  {
    if s == [] || !IsSpace(s[|s| - 1]) then |s| else TrailingStart(s[..|s| - 1])
  }

  /** `s.trim()` */
  function Trim(s: string): (r: string)
    ensures r == [] || (!IsSpace(r[0]) && !IsSpace(r[|r| - 1]))
  {
    var t := s[LeadingSpaces(s)..];
    t[..TrailingStart(t)]
  }

  /** Trimming leaves the empty string exactly when the input is all white space. */
  lemma TrimBlank(s: string)
    ensures Trim(s) == [] <==> forall k :: 0 <= k < |s| ==> IsSpace(s[k])
  {
    var i := LeadingSpaces(s);
    var t := s[i..];
    if Trim(s) == [] {
      assert i == |s|;
    }
  }

  /** Trim removes exactly the surrounding white space: the result is a slice of the input. */
  lemma TrimSlice(s: string)
    ensures exists i, j :: 0 <= i <= j <= |s| && Trim(s) == s[i..j] &&
                           (forall k :: 0 <= k < i ==> IsSpace(s[k])) &&
                           (forall k :: j <= k < |s| ==> IsSpace(s[k]))
  {
    var i := LeadingSpaces(s);
    var t := s[i..];
    var j := i + TrailingStart(t);
    assert Trim(s) == s[i..j];
    forall k | j <= k < |s| ensures IsSpace(s[k]) {
      assert s[k] == t[k - i];
    }
  }

  /** A string with no surrounding white space is its own trim. */
  lemma TrimUntouched(s: string)
    requires s == [] || (!IsSpace(s[0]) && !IsSpace(s[|s| - 1]))
    ensures Trim(s) == s
  {
    if s != [] {
      assert LeadingSpaces(s) == 0;
      assert TrailingStart(s) == |s|;
    }
  }

  /** `q` occurs in `s` at position `i`. */
  ghost predicate OccursAt(s: string, q: string, i: int) {
    0 <= i && i + |q| <= |s| && s[i..i + |q|] == q
  }

  /** `s.includes(q)` */
  predicate Includes(s: string, q: string)
    ensures Includes(s, q) ==> |q| <= |s|
    ensures |q| == |s| ==> (Includes(s, q) <==> q == s)
    decreases |s|
  {
    q <= s || (s != [] && Includes(s[1..], q))
  }

  /** `includes` is the unanchored substring test. */
  lemma {:induction false} IncludesIffOccurs(s: string, q: string)
    ensures Includes(s, q) <==> exists i :: OccursAt(s, q, i)
    decreases |s|
  {
    if q <= s {
      assert OccursAt(s, q, 0);
    } else if s != [] {
      IncludesIffOccurs(s[1..], q);
      if Includes(s[1..], q) {
        var i :| OccursAt(s[1..], q, i);
        assert s[1..][i..i + |q|] == s[i + 1..i + 1 + |q|];
        assert OccursAt(s, q, i + 1);
      }
      if exists i :: OccursAt(s, q, i) {
        var i :| OccursAt(s, q, i);
        if i > 0 {
          assert s[1..][i - 1..i - 1 + |q|] == s[i..i + |q|];
          assert OccursAt(s[1..], q, i - 1);
        }
      }
    }
  }

  /** Every string includes the empty string and itself. */
  lemma IncludesTrivial(s: string)
    ensures Includes(s, "") && Includes(s, s)
  {
  }

  /** Lowercasing works character by character, so it distributes over concatenation. */
  lemma LowerConcat(a: string, b: string)
    ensures Lower(a + b) == Lower(a) + Lower(b)
  {
    assert forall i :: 0 <= i < |a + b| ==> (a + b)[i] == if i < |a| then a[i] else b[i - |a|];
  }

  /** Both halves of a concatenation occur in it. */
  lemma IncludesParts(a: string, b: string)
    ensures Includes(a + b, a) && Includes(a + b, b)
  {
    IncludesIffOccurs(a + b, a);
    IncludesIffOccurs(a + b, b);
    assert OccursAt(a + b, a, 0) by { assert (a + b)[0..|a|] == a; }
    assert OccursAt(a + b, b, |a|) by { assert (a + b)[|a|..|a| + |b|] == b; }
  }

  /** `s.split("@")[0]`: everything before the first '@'. */
  function LocalPart(s: string): (r: string)
    ensures r <= s
    ensures '@' !in r
    ensures |r| < |s| ==> s[|r|] == '@'
  {
    if s == [] || s[0] == '@' then [] else [s[0]] + LocalPart(s[1..])
  }

  /** `parts.join(sep)`: the parts with `sep` between neighbours. */
  function Join(parts: seq<string>, sep: string): string {
    if parts == [] then ""
    else if |parts| == 1 then parts[0]
    else parts[0] + sep + Join(parts[1..], sep)
  }

  // ---------------------------------------------------------------------------
  // Numbers and strings

  function DigitChar(d: nat): char
    requires d < 10
  {
    ('0' as int + d) as char
  }

  predicate IsDigit(c: char) {
    '0' <= c <= '9'
  }

  predicate AllDigits(s: string) {
    forall k :: 0 <= k < |s| ==> IsDigit(s[k])
  }

  /** The decimal digits of `n`, most significant first, without leading zeros. */
  function Digits(n: nat): (r: string)
    ensures r != [] && AllDigits(r)
    ensures r[0] != '0' || n == 0
  {
    if n < 10 then [DigitChar(n)] else Digits(n / 10) + [DigitChar(n % 10)]
  }

  /** The value of a string of decimal digits. */
  function DigitsValue(s: string): nat
    requires AllDigits(s)
  {
    if s == [] then 0 else 10 * DigitsValue(s[..|s| - 1]) + (s[|s| - 1] as int - '0' as int)
  }

  lemma {:induction false} DigitsRoundTrip(n: nat)
    ensures DigitsValue(Digits(n)) == n
  {
    if n >= 10 {
      DigitsRoundTrip(n / 10);
      var s := Digits(n);
      assert s[..|s| - 1] == Digits(n / 10);
    }
  }

  /** `String(n)` for an integer. */
  function NumberToString(n: int): (r: string)
    ensures r != [] && !IsSpace(r[0]) && !IsSpace(r[|r| - 1])
  {
    if n < 0 then "-" + Digits(-n) else Digits(n)
  }

  /** `Number(s)` for a string: surrounding white space ignored, "" is 0, an
      optionally signed run of decimal digits is its value, anything else NaN. */
  function ParseNumber(s: string): (r: JsValue)
    ensures r.Num? || r.NaN?
  {
    var t := Trim(s);
    if t == [] then Num(0)
    else if AllDigits(t) then Num(DigitsValue(t))
    else if |t| > 1 && t[0] == '-' && AllDigits(t[1..]) then Num(-(DigitsValue(t[1..]) as int))
    else if |t| > 1 && t[0] == '+' && AllDigits(t[1..]) then Num(DigitsValue(t[1..]))
    else NaN
  }

  /** Text holding a character that is neither a digit, a sign nor white space
      reads as NaN, wherever that character stands. */
  lemma ParseNumberStray(s: string, k: int)
    requires 0 <= k < |s| && !IsDigit(s[k]) && s[k] != '-' && s[k] != '+' && !IsSpace(s[k])
    ensures ParseNumber(s) == NaN
  {
    TrimSlice(s);
    var i, j :| 0 <= i <= j <= |s| && Trim(s) == s[i..j] &&
                (forall m :: 0 <= m < i ==> IsSpace(s[m])) &&
                (forall m :: j <= m < |s| ==> IsSpace(s[m]));
    var t := Trim(s);
    assert i <= k < j;
    assert t[k - i] == s[k];
    assert !AllDigits(t);
    if k - i > 0 {
      assert t[1..][k - i - 1] == s[k];
      assert !AllDigits(t[1..]);
    }
  }

  /** Printing a number and reading it back gives the number: `Number(String(n)) === n`. */
  lemma NumberStringRoundTrip(n: int)
    ensures ParseNumber(NumberToString(n)) == Num(n)
  {
    var s := NumberToString(n);
    TrimUntouched(s);
    if n < 0 {
      DigitsRoundTrip(-n);
      assert s[1..] == Digits(-n);
      assert !IsDigit(s[0]);
    } else {
      DigitsRoundTrip(n);
    }
  }

  /** `String(v)`, the conversion a template literal applies. */
  function ToString(v: JsValue): (r: string)
    ensures v.Str? ==> r == v.s
    ensures v.Num? ==> ParseNumber(r) == v
    ensures !v.Str? && !v.Arr? ==> r != ""
  {
    match v
    case Undefined => "undefined"
    case Null => "null"
    case Bool(b) => if b then "true" else "false"
    case Num(n) => NumberStringRoundTrip(n); NumberToString(n)
    case NaN => "NaN"
    case Str(s) => s
    case Arr(items) =>
      Join(seq(|items|, i requires 0 <= i < |items| =>
             if Nullish(items[i]) then "" else ToString(items[i])), ",")
    case Obj(_) => "[object Object]"
  }

  /** `Number(v)` */
  function ToNumber(v: JsValue): (r: JsValue)
    ensures r.Num? || r.NaN?
  {
    match v
    case Undefined => NaN
    case Null => Num(0)
    case Bool(b) => Num(if b then 1 else 0)
    case Num(_) => v
    case NaN => NaN
    case Str(s) => ParseNumber(s)
    case Arr(_) => ParseNumber(ToString(v))
    case Obj(_) => NaN
  }

  /** The text of a value that the screens treat as a string. */
  function Text(v: JsValue): string {
    if v.Str? then v.s else ""
  }

  /** `container?.includes(x)` as a boolean: membership in an array, substring of a string. */
  predicate IncludesValue(container: JsValue, x: string)
    ensures IncludesValue(container, x) ==> container.Arr? || container.Str?
    ensures container.Str? ==> (IncludesValue(container, x) <==> exists i :: OccursAt(container.s, x, i))
  {
    match container
    case Arr(items) => Str(x) in items
    case Str(s) => IncludesIffOccurs(s, x); Includes(s, x)
    case _ => false
  }
}
