/**
 JavaScript values as the staff store handles them: optional properties,
 resource ids that are sometimes numbers and sometimes strings, and the
 string property keys through which every object lookup goes.
 */
module JsKeys {

  /** A property that may be `undefined`. */
  datatype Option<+T> = None | Some(value: T)

  /** Looks a key up in an object; a missing key reads as `undefined`. */
  function Get<K, V>(m: map<K, V>, k: K): (r: Option<V>)
    ensures r.Some? <==> k in m
    ensures r.Some? ==> r.value == m[k]
  {
    if k in m then Some(m[k]) else None
  }

  /**
   A resource id as it travels through the store. The API and the reducer
   tests use numbers; the staff records built when staff are fetched hold
   strings. Strict equality tells `Num(1)` and `Str("1")` apart, property
   lookup does not (see PropertyKey).
   */
  datatype Id = Num(n: int) | Str(s: string)

  function DigitChar(d: nat): (c: char)
    requires d < 10
    ensures '0' <= c <= '9'
    ensures c as int - '0' as int == d
  {
    ('0' as int + d) as char
  }

  /** Decimal digits of a natural number, most significant first. */
  function Digits(n: nat): (s: string)
    ensures 1 <= |s|
    ensures '0' <= s[0] <= '9'
    ensures n >= 10 ==> |s| >= 2
    decreases n
  {
    if n < 10 then [DigitChar(n)] else Digits(n / 10) + [DigitChar(n % 10)]
  }

  /** `String(n)` for an integer-valued JavaScript number. */
  function Decimal(n: int): (s: string)
    ensures 1 <= |s|
    ensures s[0] == '-' <==> n < 0
  {
    if n < 0 then "-" + Digits(-n) else Digits(n)
  }

  lemma {:induction false} DigitsInjective(a: nat, b: nat)
    requires Digits(a) == Digits(b)
    ensures a == b
    decreases a
  {
    if a < 10 && b < 10 {
      assert DigitChar(a) == Digits(a)[0] == Digits(b)[0] == DigitChar(b);
    } else if a >= 10 && b >= 10 {
      var sa, sb := Digits(a), Digits(b);
      assert sa == Digits(a / 10) + [DigitChar(a % 10)];
      assert sb == Digits(b / 10) + [DigitChar(b % 10)];
      assert sa[..|sa| - 1] == Digits(a / 10);
      assert sb[..|sb| - 1] == Digits(b / 10);
      DigitsInjective(a / 10, b / 10);
      assert DigitChar(a % 10) == sa[|sa| - 1] == sb[|sb| - 1] == DigitChar(b % 10);
    }
  }

  /** Distinct integers never print the same, so numeric keys never collide. */
  lemma DecimalInjective(a: int, b: int)
    requires Decimal(a) == Decimal(b)
    ensures a == b
  {
    if a < 0 && b < 0 {
      assert Digits(-a) == Decimal(a)[1..] == Decimal(b)[1..] == Digits(-b);
      DigitsInjective(-a, -b);
    } else if a >= 0 && b >= 0 {
      DigitsInjective(a, b);
    }
  }

  /** The property key an id is looked up under: numbers are printed in decimal. */
  function PropertyKey(id: Id): string
  {
    match id
    case Num(n) => Decimal(n)
    case Str(s) => s
  }

  /** `id.toString()`: a string id with the same property key. */
  function ToString(id: Id): (r: Id)
    ensures r.Str?
    ensures PropertyKey(r) == PropertyKey(id)
    ensures id.Str? ==> r == id
  {
    Str(PropertyKey(id))
  }

  /** Two numeric ids that differ give staff ids that differ. */
  lemma ToStringInjectiveOnNumbers(a: int, b: int)
    requires a != b
    ensures ToString(Num(a)) != ToString(Num(b))
  {
    if ToString(Num(a)) == ToString(Num(b)) {
      DecimalInjective(a, b);
    }
  }
}
