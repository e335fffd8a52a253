/** `_canonical_value` of scripts/trading_kernel/verify_schema.py, and on which values it is one-to-one. */
module CanonicalValue {

  newtype Byte = b: int | 0 <= b < 256

  /** The values a database row may hold. `Decimal` is units / 10^scale, printed to its scale. */
  datatype Value =
    | Null
    | Boolean(b: bool)
    | Integer(i: int)
    | Text(s: string)
    | Decimal(units: int, scale: nat)
    | Bytes(bytes: seq<Byte>)
    | List(items: seq<Value>)
    | Mapping(entries: map<string, Value>)
    | Unsupported(typeName: string)

  datatype Json =
    | JsonNull
    | JsonBoolean(b: bool)
    | JsonInteger(i: int)
    | JsonText(s: string)
    | JsonArray(items: seq<Json>)
    | JsonObject(members: map<string, Json>)

  /** No value of an unsupported type, at any depth. */
  predicate Supported(v: Value) {
    match v
    case Unsupported(_) => false
    case List(items) => forall item <- items :: Supported(item)
    case Mapping(entries) => forall key <- entries :: Supported(entries[key])
    case _ => true
  }

  // ----- text of numbers and bytes -----

  function DigitChar(d: nat): char
    requires d < 10
  {
    '0' + d as char
  }

  predicate IsDigit(c: char) {
    '0' <= c <= '9'
  }

  predicate AllDigits(s: string) {
    forall i | 0 <= i < |s| :: IsDigit(s[i])
  }

  /** The last k decimal digits of n, zero-padded. */
  function FixedDigits(n: nat, k: nat): (s: string)
    ensures |s| == k && AllDigits(s)
  {
    if k == 0 then "" else FixedDigits(n / 10, k - 1) + [DigitChar(n % 10)]
  }

  /** The shortest decimal numeral. */
  function Digits(n: nat): (s: string)
    ensures |s| > 0 && AllDigits(s)
  {
    if n < 10 then [DigitChar(n)] else Digits(n / 10) + [DigitChar(n % 10)]
  }

  /** What is left of n without its last k decimal digits. */
  function Whole(n: nat, k: nat): nat {
    if k == 0 then n else Whole(n / 10, k - 1)
  }

  /** `format(value, "f")`. */
  function FixedPoint(units: int, scale: nat): string {
    var magnitude: nat := if units < 0 then -units else units;
    (if units < 0 then "-" else "") + Magnitude(magnitude, scale)
  }

  /** The text without its sign. */
  function Magnitude(magnitude: nat, scale: nat): string {
    Digits(Whole(magnitude, scale)) + if scale == 0 then "" else "." + FixedDigits(magnitude, scale)
  }

  function HexChar(d: int): char
    requires 0 <= d < 16
  {
    if d < 10 then '0' + d as char else 'a' + (d - 10) as char
  }

  function Hex(bytes: seq<Byte>): string {
    if bytes == [] then "" else [HexChar(bytes[0] as int / 16), HexChar(bytes[0] as int % 16)] + Hex(bytes[1..])
  }

  /** `_canonical_value`. */
  function Canonical(v: Value): Json
    requires Supported(v)
  {
    match v
    case Null => JsonNull
    case Boolean(b) => JsonBoolean(b)
    case Integer(i) => JsonInteger(i)
    case Text(s) => JsonText(s)
    case Decimal(units, scale) => JsonText(FixedPoint(units, scale))
    case Bytes(bytes) => JsonText(Hex(bytes))
    case List(items) => JsonArray(seq(|items|, i requires 0 <= i < |items| => Canonical(items[i])))
    case Mapping(entries) => JsonObject(map key <- entries :: Canonical(entries[key]))
  }

  // ----- what the texts say -----

  /** A numeral, read from the left. */
  function Read(s: string): nat
    requires AllDigits(s)
  {
    if s == "" then 0 else 10 * Read(s[..|s| - 1]) + (s[|s| - 1] - '0') as nat
  }

  function Pow10(k: nat): nat {
    if k == 0 then 1 else 10 * Pow10(k - 1)
  }

  lemma {:induction false} DigitsRead(n: nat)
    ensures Read(Digits(n)) == n
    ensures Digits(n)[0] == '0' ==> n == 0
  {
    if n >= 10 {
      DigitsRead(n / 10);
      assert Digits(n)[..|Digits(n)| - 1] == Digits(n / 10);
    }
  }

  lemma OneDigitMore(n: nat, k: nat)
    requires k > 0
    ensures Read(FixedDigits(n, k)) == 10 * Read(FixedDigits(n / 10, k - 1)) + n % 10
  {
    var init := FixedDigits(n / 10, k - 1);
    assert FixedDigits(n, k)[..k - 1] == init && FixedDigits(n, k)[k - 1] == DigitChar(n % 10);
  }

  lemma OnePlaceMore(whole: nat, power: nat, rest: nat, n: nat)
    requires whole * power + rest == n / 10
    ensures whole * (10 * power) + (10 * rest + n % 10) == n
  {
    assert whole * (10 * power) == 10 * (whole * power);
  }

  lemma {:induction false} FixedDigitsRead(n: nat, k: nat)
    ensures Whole(n, k) * Pow10(k) + Read(FixedDigits(n, k)) == n
  {
    if k > 0 {
      FixedDigitsRead(n / 10, k - 1);
      OneDigitMore(n, k);
      OnePlaceMore(Whole(n / 10, k - 1), Pow10(k - 1), Read(FixedDigits(n / 10, k - 1)), n);
    }
  }

  /** The fixed-point text reads as the number it is of: a minus sign for a negative one, a whole part without
      superfluous zeros, and, after the point, as many digits as the scale. */
  lemma FixedPointReads(units: int, scale: nat) returns (whole: string, fraction: string)
    ensures AllDigits(whole) && AllDigits(fraction) && whole != "" && |fraction| == scale
    ensures FixedPoint(units, scale) == (if units < 0 then "-" else "") + whole + if scale == 0 then "" else "." + fraction
    ensures Read(whole) * Pow10(scale) + Read(fraction) == if units < 0 then -units else units
    ensures whole[0] == '0' ==> Read(whole) == 0
  {
    var magnitude: nat := if units < 0 then -units else units;
    whole, fraction := Digits(Whole(magnitude, scale)), FixedDigits(magnitude, scale);
    DigitsRead(Whole(magnitude, scale));
    FixedDigitsRead(magnitude, scale);
    if scale == 0 {
      assert Magnitude(magnitude, scale) == whole + "";
    }
    assert (if units < 0 then "-" else "") + Magnitude(magnitude, scale)
        == (if units < 0 then "-" else "") + whole + if scale == 0 then "" else "." + fraction;
  }

  function HexDigit(c: char): int {
    if IsDigit(c) then (c - '0') as int else c as int - 'a' as int + 10
  }

  /** Two lower-case hexadecimal digits a byte, the higher one first. */
  lemma {:induction false} HexReads(bytes: seq<Byte>, k: nat)
    requires k < |bytes|
    ensures |Hex(bytes)| == 2 * |bytes|
    ensures var high, low := Hex(bytes)[2 * k], Hex(bytes)[2 * k + 1];
            && (IsDigit(high) || 'a' <= high <= 'f') && (IsDigit(low) || 'a' <= low <= 'f')
            && 16 * HexDigit(high) + HexDigit(low) == bytes[k] as int
  {
    if |bytes| > 1 {
      HexReads(bytes[1..], if k == 0 then 0 else k - 1);
    }
    assert Hex(bytes)[2..] == Hex(bytes[1..]);
    if k > 0 {
      assert Hex(bytes)[2 * k] == Hex(bytes[1..])[2 * (k - 1)] && Hex(bytes)[2 * k + 1] == Hex(bytes[1..])[2 * (k - 1) + 1];
    }
  }

  // ----- where it is one-to-one -----

  /** The last k digits and the rest determine a number. */
  lemma {:induction false} FixedDigitsInjective(n: nat, m: nat, k: nat)
    requires Whole(n, k) == Whole(m, k) && FixedDigits(n, k) == FixedDigits(m, k)
    ensures n == m
  {
    if k > 0 {
      var a, b := FixedDigits(n / 10, k - 1), FixedDigits(m / 10, k - 1);
      assert FixedDigits(n, k)[..k - 1] == a && FixedDigits(m, k)[..k - 1] == b;
      assert FixedDigits(n, k)[k - 1] == DigitChar(n % 10) && FixedDigits(m, k)[k - 1] == DigitChar(m % 10);
      FixedDigitsInjective(n / 10, m / 10, k - 1);
    }
  }

  lemma {:induction false} DigitsInjective(n: nat, m: nat)
    requires Digits(n) == Digits(m)
    ensures n == m
  {
    var s, t := Digits(n), Digits(m);
    assert s[|s| - 1] == DigitChar(n % 10) && t[|t| - 1] == DigitChar(m % 10);
    if n >= 10 && m >= 10 {
      assert s[..|s| - 1] == Digits(n / 10) && t[..|t| - 1] == Digits(m / 10);
      DigitsInjective(n / 10, m / 10);
    }
  }

  /** The point is the only character of the text that is no digit; it stands right after the whole part. */
  lemma PointPlace(magnitude: nat, scale: nat)
    ensures
      var text, whole := Magnitude(magnitude, scale), Digits(Whole(magnitude, scale));
      && |text| == |whole| + (if scale == 0 then 0 else 1 + scale)
      && text[..|whole|] == whole
      && (scale > 0 ==> text[|whole|] == '.' && text[|whole| + 1..] == FixedDigits(magnitude, scale))
      && forall i | 0 <= i < |text| && (scale == 0 || i != |whole|) :: IsDigit(text[i])
  {
  }

  lemma MagnitudeInjective(m: nat, s: nat, n: nat, t: nat)
    requires Magnitude(m, s) == Magnitude(n, t)
    ensures m == n && s == t
  {
    PointPlace(m, s);
    PointPlace(n, t);
    var text := Magnitude(m, s);
    var a, b := Digits(Whole(m, s)), Digits(Whole(n, t));
    assert (s > 0 <==> exists i | 0 <= i < |text| :: !IsDigit(text[i]))
        && (t > 0 <==> exists i | 0 <= i < |text| :: !IsDigit(text[i])) by {
      if s > 0 { assert !IsDigit(text[|a|]); }
      if t > 0 { assert !IsDigit(text[|b|]); }
    }
    if s > 0 {
      assert !IsDigit(text[|a|]) && !IsDigit(text[|b|]);
    }
    assert |a| == |b| && s == t;
    assert a == text[..|a|] && b == text[..|b|];
    DigitsInjective(Whole(m, s), Whole(n, s));
    if s > 0 {
      assert text[|a| + 1..] == FixedDigits(m, s) == FixedDigits(n, s);
      FixedDigitsInjective(m, n, s);
    }
  }

  /** Fixed-point text determines value and scale. */
  lemma FixedPointInjective(u: int, s: nat, v: int, t: nat)
    requires FixedPoint(u, s) == FixedPoint(v, t)
    ensures u == v && s == t
  {
    var m: nat, n: nat := if u < 0 then -u else u, if v < 0 then -v else v;
    PointPlace(m, s);
    PointPlace(n, t);
    assert FixedPoint(u, s) == (if u < 0 then "-" else "") + Magnitude(m, s);
    assert FixedPoint(v, t) == (if v < 0 then "-" else "") + Magnitude(n, t);
    assert u < 0 <==> FixedPoint(u, s)[0] == '-';
    assert v < 0 <==> FixedPoint(v, t)[0] == '-';
    assert Magnitude(m, s) == FixedPoint(u, s)[if u < 0 then 1 else 0..];
    assert Magnitude(n, t) == FixedPoint(v, t)[if v < 0 then 1 else 0..];
    MagnitudeInjective(m, s, n, t);
  }

  lemma {:induction false} HexInjective(a: seq<Byte>, b: seq<Byte>)
    requires Hex(a) == Hex(b)
    ensures a == b
  {
    if a != [] && b != [] {
      var x, y := a[0] as int, b[0] as int;
      assert Hex(a)[0] == HexChar(x / 16) && Hex(b)[0] == HexChar(y / 16);
      assert Hex(a)[1] == HexChar(x % 16) && Hex(b)[1] == HexChar(y % 16);
      assert Hex(a)[2..] == Hex(a[1..]) && Hex(b)[2..] == Hex(b[1..]);
      HexInjective(a[1..], b[1..]);
    }
  }

  /** A plain value: what a JSON column holds. */
  predicate Plain(v: Value) {
    match v
    case Null => true
    case Boolean(_) => true
    case Integer(_) => true
    case Text(_) => true
    case List(items) => forall item <- items :: Plain(item)
    case Mapping(entries) => forall key <- entries :: Plain(entries[key])
    case _ => false
  }

  lemma {:induction false} PlainInjective(v: Value, w: Value)
    requires Plain(v) && Plain(w) && Supported(v) && Supported(w) && Canonical(v) == Canonical(w)
    ensures v == w
  {
    match v
    case List(items) =>
      assert Canonical(v).JsonArray? && w.List?;
      forall i | 0 <= i < |items| ensures items[i] == w.items[i] {
        assert items[i] in items && w.items[i] in w.items;
        assert Canonical(v).items[i] == Canonical(w).items[i];
        PlainInjective(items[i], w.items[i]);
      }
    case Mapping(entries) =>
      assert Canonical(v).JsonObject? && w.Mapping?;
      assert Canonical(v).members.Keys == entries.Keys && Canonical(w).members.Keys == w.entries.Keys;
      forall key <- entries ensures entries[key] == w.entries[key] {
        assert Canonical(v).members[key] == Canonical(w).members[key];
        PlainInjective(entries[key], w.entries[key]);
      }
    case _ =>
  }

  /** The value type of a column. */
  datatype Kind = BooleanKind | IntegerKind | TextKind | DecimalKind | BytesKind | PlainKind

  predicate HasKind(v: Value, kind: Kind) {
    v.Null? || match kind
               case BooleanKind => v.Boolean?
               case IntegerKind => v.Integer?
               case TextKind => v.Text?
               case DecimalKind => v.Decimal?
               case BytesKind => v.Bytes?
               case PlainKind => Plain(v)
  }

  /** Within one value type the canonical form determines the value. */
  lemma CanonicalInjective(v: Value, w: Value, kind: Kind)
    requires HasKind(v, kind) && HasKind(w, kind) && Supported(v) && Supported(w)
    ensures Canonical(v) == Canonical(w) <==> v == w
  {
    if Canonical(v) == Canonical(w) {
      match kind
      case DecimalKind =>
        if v.Decimal? && w.Decimal? { FixedPointInjective(v.units, v.scale, w.units, w.scale); }
      case BytesKind =>
        if v.Bytes? && w.Bytes? { HexInjective(v.bytes, w.bytes); }
      case PlainKind => PlainInjective(v, w);
      case _ =>
    }
  }

  /** Across value types it does not: a decimal, a byte string and a text can have the same canonical form. */
  lemma CanonicalCollides()
    ensures Canonical(Decimal(10, 0)) == Canonical(Text("10")) == Canonical(Bytes([16]))
    ensures Decimal(10, 0) != Text("10") && Text("10") != Bytes([16])
  {
    assert Digits(10) == "10" by {
      assert Digits(1) == "1";
    }
    assert FixedPoint(10, 0) == "10";
    assert Hex([16]) == "10" by {
      assert Hex([]) == "";
      assert HexChar(1) == '1' && HexChar(0) == '0';
    }
  }
}
