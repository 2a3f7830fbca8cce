/**
 * JavaScript values as they occur in the drafts, table rows and server
 * replies of the back-office front end, and the coercions the code applies
 * to them (truthiness, `||`, `??`, `String(v)`, `Number(s)`, spread).
 */
module Values {
  import opened Wrappers
  import opened Strings

  /**
   * A JavaScript value. Numbers are integers; `NaN` is the one non-integer
   * number that the code can produce (from `Number(s)`). `File` is a browser
   * File object picked in an upload input.
   */
  datatype Val =
    | Undefined
    | Null
    | Bool(b: bool)
    | Num(n: int)
    | NaN
    | Str(s: string)
    | Arr(items: seq<Val>)
    | Obj(fields: map<string, Val>)
    | File(fileName: string)

  /** A plain object: a draft, a table row, a nested location or charge. */
  type Record = map<string, Val>

  /** `r[k]`; a key the object does not have reads as `undefined`. */
  function Get(r: Record, k: string): Val {
    if k in r then r[k] else Undefined
  }

  /** `v?.k` on any value: only plain objects carry named properties here. */
  function Prop(v: Val, k: string): Val {
    if v.Obj? then Get(v.fields, k) else Undefined
  }

  predicate IsNullish(v: Val) { v == Undefined || v == Null }

  /** JavaScript truthiness. */
  predicate Truthy(v: Val) {
    match v
    case Undefined => false
    case Null => false
    case Bool(b) => b
    case Num(n) => n != 0
    case NaN => false
    case Str(s) => s != ""
    case Arr(_) => true
    case Obj(_) => true
    case File(_) => true
  }

  /** `v || d`. */
  function Or(v: Val, d: Val): Val {
    if Truthy(v) then v else d
  }

  /** `v ?? d`. */
  function Coalesce(v: Val, d: Val): Val {
    if IsNullish(v) then d else v
  }

  /** `{...v}`: the own enumerable properties a spread copies (objects only here). */
  function Spread(v: Val): Record {
    if v.Obj? then v.fields else map[]
  }

  /** `String(v)` (equally `v.toString()` for a non-nullish v, and `${v}`). */
  function ToStr(v: Val): string
    decreases v, 1
  {
    match v
    case Undefined => "undefined"
    case Null => "null"
    case Bool(b) => if b then "true" else "false"
    case Num(n) => IntToString(n)
    case NaN => "NaN"
    case Str(s) => s
    case Arr(_) => JoinFrom(v, 0)
    case Obj(_) => "[object Object]"
    case File(_) => "[object File]"
  }

  /** `Array.prototype.join(',')` from index i on: nullish elements print as "". */
  function JoinFrom(v: Val, i: nat): string
    requires v.Arr? && i <= |v.items|
    decreases v, 0, |v.items| - i
  {
    if i == |v.items| then ""
    else
      (if i > 0 then "," else "")
      + (if IsNullish(v.items[i]) then "" else ToStr(v.items[i]))
      + JoinFrom(v, i + 1)
  }

  /**
   * `Number(s)` for a string: surrounding white space is ignored, the empty
   * string is 0, an optionally signed run of decimal digits is that integer,
   * and every other string is NaN (see README for the forms not modelled).
   */
  function ToNumber(s: string): (r: Val)
    ensures r.Num? || r.NaN?
  {
    NumberOfTrimmed(Trim(s))
  }

  /** `Number(s)` once the white space around s is gone. */
  function NumberOfTrimmed(t: string): (r: Val)
    ensures r.Num? || r.NaN?
  {
    if t == "" then Num(0)
    else if AllDigits(t) then Num(DigitsValue(t))
    else if |t| > 1 && (t[0] == '-' || t[0] == '+') && AllDigits(t[1..]) then
      Num(if t[0] == '-' then -(DigitsValue(t[1..]) as int) else DigitsValue(t[1..]))
    else NaN
  }

  /** A printed integer carries no surrounding white space. */
  lemma TrimOfIntToString(n: int)
    ensures Trim(IntToString(n)) == IntToString(n)
  {
    var t := IntToString(n);
    if n < 0 {
      var d := NatToString(-n);
      assert t[|t| - 1] == d[|d| - 1];
    }
    TrimIdentity(t);
  }

  lemma ToNumberNegative(t: string)
    requires |t| > 1 && t[0] == '-' && AllDigits(t[1..]) && Trim(t) == t
    ensures ToNumber(t) == Num(-(DigitsValue(t[1..]) as int))
  {
    NegativeOfTrimmed(t);
    assert ToNumber(t) == NumberOfTrimmed(Trim(t));
  }

  lemma NegativeOfTrimmed(t: string)
    requires |t| > 1 && t[0] == '-' && AllDigits(t[1..])
    ensures NumberOfTrimmed(t) == Num(-(DigitsValue(t[1..]) as int))
  {
    assert !AllDigits(t) by { assert !IsDigit(t[0]); }
  }

  lemma ToNumberOfNatToString(n: nat)
    ensures ToNumber(NatToString(n)) == Num(n)
  {
    TrimOfIntToString(n);
    DigitsValueOfNatToString(n);
  }

  lemma ToNumberOfNegative(m: nat)
    requires m > 0
    ensures ToNumber("-" + NatToString(m)) == Num(-(m as int))
  {
    var d := NatToString(m);
    var t := "-" + d;
    assert t == IntToString(-(m as int));
    TrimOfIntToString(-(m as int));
    assert t[1..] == d;
    ToNumberNegative(t);
    DigitsValueOfNatToString(m);
  }

  /** `Number(String(n))` is n: printing an integer and reading it back is the identity. */
  lemma ToNumberOfToStr(n: int)
    ensures ToNumber(IntToString(n)) == Num(n)
  {
    if n < 0 {
      var m: nat := -n;
      var t := "-" + NatToString(m);
      ToNumberOfNegative(m);
      assert ToNumber(t) == Num(n);
      assert t == IntToString(n);
    } else {
      ToNumberOfNatToString(n);
    }
  }

  /**
   * A printable ASCII character other than a letter, a digit, a sign or '.'.
   * No form of JavaScript's number syntax uses one (decimals, exponents, the
   * 0x/0o/0b prefixes, Infinity), and none is white space.
   */
  predicate IsNumberForeign(c: char) {
    ('!' <= c <= '/' && c != '+' && c != '-' && c != '.') || (':' <= c <= '@')
    || ('[' <= c <= '`') || ('{' <= c <= '~')
  }

  /** Text holding such a character reads as NaN, in the model as in JavaScript. */
  lemma ForeignCharIsNaN(s: string, i: int)
    requires 0 <= i < |s| && IsNumberForeign(s[i])
    ensures ToNumber(s) == NaN
  {
    var c := s[i];
    TrimKeeps(s, c);
    ForeignInTrimmedIsNaN(Trim(s), c);
  }

  lemma ForeignInTrimmedIsNaN(t: string, c: char)
    requires c in t && IsNumberForeign(c)
    ensures NumberOfTrimmed(t) == NaN
  {
    var j :| 0 <= j < |t| && t[j] == c;
    assert !AllDigits(t) by { assert !IsDigit(t[j]); }
    if |t| > 1 && (t[0] == '-' || t[0] == '+') {
      assert j != 0;
      assert !AllDigits(t[1..]) by { assert t[1..][j - 1] == c; }
    }
  }

  /** A word that starts with a letter, other than "Infinity", is not a number. */
  lemma ToNumberOfWord(t: string)
    requires t != [] && IsLetter(t[0]) && !IsSpace(t[|t| - 1]) && t != "Infinity"
    ensures ToNumber(t) == NaN
  {
    TrimIdentity(t);
    assert !IsDigit(t[0]);
  }

  /**
   * `v.length > 0`: arrays and strings by their length, objects by their
   * `length` property converted to a number as `>` converts it.
   */
  predicate HasPositiveLength(v: Val) {
    match v
    case Arr(items) => |items| > 0
    case Str(s) => |s| > 0
    case Obj(m) => var n := ToNumeric(Get(m, "length")); n.Num? && n.n > 0
    case _ => false
  }

  /** JavaScript's conversion of a value to a number, under the integer reading of `Number`. */
  function ToNumeric(v: Val): (r: Val)
    ensures r.Num? || r.NaN?
    ensures v.Num? ==> r == v
    ensures v.Str? ==> r == ToNumber(v.s)
  {
    match v
    case Num(_) => v
    case Bool(b) => Num(if b then 1 else 0)
    case Null => Num(0)
    case Str(s) => ToNumber(s)
    case Arr(_) => ToNumber(ToStr(v))
    case _ => NaN
  }

  /** An object whose `length` is "5" or true counts as having a positive length, as `> 0` says. */
  lemma CoercedLengths()
    ensures HasPositiveLength(Obj(map["length" := Str("5")]))
    ensures HasPositiveLength(Obj(map["length" := Bool(true)]))
    ensures !HasPositiveLength(Obj(map["length" := Null]))
  {
    assert ToNumber("5") == Num(5) by {
      assert Trim("5") == "5" by { TrimIdentity("5"); }
      assert AllDigits("5");
      assert DigitsValue("5") == 5 by { DigitsValueOfNatToString(5); assert NatToString(5) == "5"; }
    }
  }

  /** The type name zod reports in "Expected X, received Y". */
  function TypeName(v: Val): string {
    match v
    case Undefined => "undefined"
    case Null => "null"
    case Bool(_) => "boolean"
    case Num(_) => "number"
    case NaN => "nan"
    case Str(_) => "string"
    case Arr(_) => "array"
    case Obj(_) => "object"
    case File(_) => "object"
  }

  /** Reads a string field of a record, treating every non-string as "". */
  function StrOf(r: Record, k: string): string {
    if Get(r, k).Str? then Get(r, k).s else ""
  }

  /** Items of an array value. */
  function Items(v: Val): seq<Val>
    requires v.Arr?
  {
    v.items
  }

  /** Field k of r holds an array. */
  predicate IsArrayAt(r: Record, k: string) {
    k in r && r[k].Arr?
  }
}
