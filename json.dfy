/** JavaScript values as they appear on the wire and in the client's tables.

    Only integers are modelled as numbers. Property keys of JavaScript objects
    are strings, so a table indexed by a message id is indexed by `PropertyKey(id)`,
    the value's conversion to a string. */
module Json {

  datatype Value =
    | Undefined
    | Null
    | Bool(b: bool)
    | Num(n: int)
    | Str(s: string)
    | Arr(items: seq<Value>)
    | Obj(fields: map<string, Value>)

  /** JavaScript truthiness (`if (x)`). */
  predicate Truthy(v: Value) {
    match v
    case Undefined => false
    case Null => false
    case Bool(b) => b
    case Num(n) => n != 0
    case Str(s) => s != ""
    case Arr(_) => true
    case Obj(_) => true
  }

  /** Reading any property of these values throws a TypeError. */
  predicate Nullish(v: Value) {
    v.Undefined? || v.Null?
  }

  /** `v[k]` for a value that is not nullish, for names that are neither an array
      index nor `length` (the only names the client reads). */
  function Prop(v: Value, k: string): Value {
    if v.Obj? && k in v.fields then v.fields[k] else Undefined
  }

  function DigitChar(d: nat): (c: char)
    requires d < 10
    ensures '0' <= c <= '9' && c as int - '0' as int == d
  {
    "0123456789"[d]
  }

  /** Decimal representation of a natural number, without leading zeros. */
  function NatDigits(n: nat): (s: string)
    ensures 1 <= |s|
    ensures forall i :: 0 <= i < |s| ==> '0' <= s[i] <= '9'
    ensures n < 10 <==> |s| == 1
    decreases n
  {
    if n < 10 then [DigitChar(n)] else NatDigits(n / 10) + [DigitChar(n % 10)]
  }

  /** `String(n)` for an integer `n`. */
  function IntString(n: int): (s: string)
    ensures 1 <= |s|
    ensures n >= 0 <==> '0' <= s[0] <= '9'
  {
    if n < 0 then "-" + NatDigits(-n) else NatDigits(n)
  }

  function JoinWithCommas(parts: seq<string>): string {
    if |parts| == 0 then ""
    else if |parts| == 1 then parts[0]
    else parts[0] + "," + JoinWithCommas(parts[1..])
  }

  /** `String(v)`: the conversion JavaScript applies to a value used as a property key. */
  function PropertyKey(v: Value): string {
    match v
    case Undefined => "undefined"
    case Null => "null"
    case Bool(b) => if b then "true" else "false"
    case Num(n) => IntString(n)
    case Str(s) => s
    case Arr(items) =>
      JoinWithCommas(seq(|items|, i requires 0 <= i < |items| =>
        if Nullish(items[i]) then "" else PropertyKey(items[i])))
    case Obj(_) => "[object Object]"
  }

  /** Distinct naturals print differently. */
  lemma {:induction false} NatDigitsInjective(a: nat, b: nat)
    requires NatDigits(a) == NatDigits(b)
    ensures a == b
    decreases a
  {
    if a >= 10 && b >= 10 {
      var sa, sb := NatDigits(a), NatDigits(b);
      assert sa[|sa| - 1] == DigitChar(a % 10) && sb[|sb| - 1] == DigitChar(b % 10);
      assert sa[..|sa| - 1] == NatDigits(a / 10);
      assert sb[..|sb| - 1] == NatDigits(b / 10);
      NatDigitsInjective(a / 10, b / 10);
    } else if a < 10 && b < 10 {
      assert NatDigits(a)[0] == DigitChar(a);
    }
  }

  /** Two numeric ids name the same table entry only when they are equal. */
  lemma NumKeysInjective(a: int, b: int)
    requires PropertyKey(Num(a)) == PropertyKey(Num(b))
    ensures a == b
  {
    if a < 0 && b < 0 {
      assert NatDigits(-a) == IntString(a)[1..];
      assert NatDigits(-b) == IntString(b)[1..];
      NatDigitsInjective(-a, -b);
    } else if a >= 0 && b >= 0 {
      NatDigitsInjective(a, b);
    }
  }

  /** A string of decimal digits with no leading zero, as `String(n)` prints a natural. */
  predicate CanonicalDigits(s: string) {
    && 1 <= |s|
    && (forall i :: 0 <= i < |s| ==> '0' <= s[i] <= '9')
    && (|s| == 1 || s[0] != '0')
  }

  /** The natural a string of decimal digits spells. */
  function DigitsValue(s: string): nat
    requires forall i :: 0 <= i < |s| ==> '0' <= s[i] <= '9'
    decreases |s|
  {
    if s == [] then 0
    else DigitsValue(s[..|s| - 1]) * 10 + (s[|s| - 1] as int - '0' as int)
  }

  /** Digits that do not start with `0` spell a positive number. */
  lemma {:induction false} LeadingDigitPositive(s: string)
    requires 1 <= |s| && (forall i :: 0 <= i < |s| ==> '0' <= s[i] <= '9') && s[0] != '0'
    ensures DigitsValue(s) >= 1
    decreases |s|
  {
    if |s| > 1 {
      LeadingDigitPositive(s[..|s| - 1]);
    }
  }

  /** Printing the number a canonical digit string spells gives the string back. */
  lemma {:induction false} CanonicalDigitsPrint(s: string)
    requires CanonicalDigits(s)
    ensures NatDigits(DigitsValue(s)) == s
    decreases |s|
  {
    var d := s[|s| - 1] as int - '0' as int;
    if |s| == 1 {
      assert DigitChar(d) == s[0];
    } else {
      var prefix := s[..|s| - 1];
      assert prefix[0] == s[0];
      LeadingDigitPositive(prefix);
      CanonicalDigitsPrint(prefix);
      var v := DigitsValue(s);
      assert v / 10 == DigitsValue(prefix) && v % 10 == d;
      assert DigitChar(d) == s[|s| - 1];
      assert s == prefix + [s[|s| - 1]];
    }
  }

  /** A caller-supplied string id and a numeric id name the same table entry
      exactly when the string is the number's decimal spelling: the string
      id "5" shares the entry of the counter's id 5. */
  lemma StringIdAliasesNumber(s: string, n: nat)
    requires CanonicalDigits(s)
    ensures PropertyKey(Str(s)) == PropertyKey(Num(n)) <==> DigitsValue(s) == n
  {
    CanonicalDigitsPrint(s);
    if PropertyKey(Str(s)) == PropertyKey(Num(n)) {
      NatDigitsInjective(DigitsValue(s), n);
    }
  }
}
