/**
 * The hand-written request validators. Their inputs are arbitrary JSON-ish
 * JavaScript values, so each is modelled on a small value universe in which
 * numbers are IEEE doubles seen as exact reals plus NaN and the infinities.
 */
module Validation {
  import opened Wrappers
  import opened Text
  import opened Types

  /** `x < 0` on a JavaScript number: false for NaN. */
  predicate Negative(n: JsNumber) {
    n.NegInfinity? || (n.Finite? && n.r < 0.0)
  }

  /** `Number.isFinite`. */
  predicate IsFinite(n: JsNumber) {
    n.Finite?
  }

  /** `Number.isInteger`: finite and without a fractional part. */
  predicate IsInteger(n: JsNumber) {
    n.Finite? && n.r == n.r.Floor as real
  }

  /** `Math.round`: the nearest integer, halves rounded up. */
  function Round(x: real): int {
    (x + 0.5).Floor
  }

  /** JavaScript truthiness: `!v` holds for exactly these values. */
  predicate Falsy(v: JsValue) {
    v.JsNull? || v.JsUndefined? || (v.JsBool? && !v.b) || (v.JsString? && v.s == "")
    || (v.JsNum? && (v.n.NaN? || (v.n.Finite? && v.n.r == 0.0)))
  }

  /** validateRestaurantId: a string with something left after trimming. */
  function ValidateRestaurantId(v: JsValue): (ok: bool)
    ensures ok ==> v.JsString? && v.s != ""
  {
    if Falsy(v) || !v.JsString? then false
    else |Trim(v.s)| > 0
  }

  /** A restaurant id is valid exactly when it is a string with a character that is not whitespace. */
  lemma RestaurantIdMeaning(v: JsValue)
    ensures ValidateRestaurantId(v) <==> v.JsString? && exists i :: 0 <= i < |v.s| && !IsJsWhitespace(v.s[i])
  {
    if v.JsString? {
      assert Falsy(v) <==> v.s == "";
      TrimNonEmpty(v.s);
    }
  }

  // ----- order ids -----

  /** `[0-9a-f]` under the `i` flag. */
  predicate HexChar(c: char) {
    ('0' <= c <= '9') || ('a' <= c <= 'f') || ('A' <= c <= 'F')
  }

  /** What the pattern demands at position i of a 36-character id. */
  predicate UuidCharOk(s: string, i: int)
    requires 0 <= i < |s|
  {
    if i == 8 || i == 13 || i == 18 || i == 23 then s[i] == '-'
    else if i == 14 then '1' <= s[i] <= '5'
    else if i == 19 then s[i] in "89abAB"
    else HexChar(s[i])
  }

  predicate UuidText(s: string) {
    |s| == 36 && forall i :: 0 <= i < 36 ==> UuidCharOk(s, i)
  }

  /** validateOrderId: a non-empty string matching the UUID pattern. */
  function ValidateOrderId(v: JsValue): (ok: bool)
    ensures ok ==> v.JsString? && |v.s| == 36
  {
    if Falsy(v) || !v.JsString? then false
    else UuidText(v.s)
  }

  predicate AllHex(s: string) {
    forall i :: 0 <= i < |s| ==> HexChar(s[i])
  }

  /**
   * The pattern as written: five groups of 8, 4, 4, 4 and 12 hexadecimal
   * digits joined by '-', the third starting with the version digit 1-5
   * (section 4.1.3 of RFC 4122) and the fourth with the variant digit
   * 8, 9, a or b (section 4.1.1 of RFC 4122), letters in either case.
   */
  predicate UuidPieces(s: string, a: string, b: string, c: string, d: string, e: string) {
    s == a + "-" + b + "-" + c + "-" + d + "-" + e
    && |a| == 8 && |b| == 4 && |c| == 4 && |d| == 4 && |e| == 12
    && AllHex(a) && AllHex(b) && AllHex(c) && AllHex(d) && AllHex(e)
    && '1' <= c[0] <= '5' && d[0] in "89abAB"
  }

  lemma PiecesPositions(s: string, a: string, b: string, c: string, d: string, e: string)
    requires s == a + "-" + b + "-" + c + "-" + d + "-" + e
    requires |a| == 8 && |b| == 4 && |c| == 4 && |d| == 4 && |e| == 12
    ensures |s| == 36
    ensures a == s[..8] && b == s[9..13] && c == s[14..18] && d == s[19..23] && e == s[24..]
    ensures s[8] == '-' && s[13] == '-' && s[18] == '-' && s[23] == '-'
  {
  }

  lemma Reassemble(s: string)
    requires |s| == 36 && s[8] == '-' && s[13] == '-' && s[18] == '-' && s[23] == '-'
    ensures s == s[..8] + "-" + s[9..13] + "-" + s[14..18] + "-" + s[19..23] + "-" + s[24..]
  {
    assert s == s[..8] + [s[8]] + s[9..];
    assert s[9..] == s[9..13] + [s[13]] + s[14..];
    assert s[14..] == s[14..18] + [s[18]] + s[19..];
    assert s[19..] == s[19..23] + [s[23]] + s[24..];
  }

  lemma PiecesOfUuid(s: string)
    requires UuidText(s)
    ensures UuidPieces(s, s[..8], s[9..13], s[14..18], s[19..23], s[24..])
  {
    var a, b, c, d, e := s[..8], s[9..13], s[14..18], s[19..23], s[24..];
    assert forall i :: 0 <= i < 8 ==> a[i] == s[i] && UuidCharOk(s, i);
    assert forall i :: 0 <= i < 4 ==> b[i] == s[9 + i] && UuidCharOk(s, 9 + i);
    assert forall i :: 0 <= i < 4 ==> c[i] == s[14 + i] && UuidCharOk(s, 14 + i);
    assert forall i :: 0 <= i < 4 ==> d[i] == s[19 + i] && UuidCharOk(s, 19 + i);
    assert forall i :: 0 <= i < 12 ==> e[i] == s[24 + i] && UuidCharOk(s, 24 + i);
    assert UuidCharOk(s, 8) && UuidCharOk(s, 13) && UuidCharOk(s, 18) && UuidCharOk(s, 23);
    Reassemble(s);
  }

  lemma UuidOfPieces(s: string, a: string, b: string, c: string, d: string, e: string)
    requires UuidPieces(s, a, b, c, d, e)
    ensures UuidText(s)
  {
    PiecesPositions(s, a, b, c, d, e);
    forall i | 0 <= i < 36
      ensures UuidCharOk(s, i)
    {
      if i < 8 {
        assert s[i] == a[i];
      } else if 8 < i < 13 {
        assert s[i] == b[i - 9];
      } else if 13 < i < 18 {
        assert s[i] == c[i - 14];
      } else if 18 < i < 23 {
        assert s[i] == d[i - 19];
      } else if 23 < i {
        assert s[i] == e[i - 24];
      }
    }
  }

  /** The position-by-position check is the pattern. */
  lemma OrderIdMeaning(v: JsValue)
    ensures ValidateOrderId(v) <==> v.JsString? && exists a, b, c, d, e :: UuidPieces(v.s, a, b, c, d, e)
  {
    if ValidateOrderId(v) {
      PiecesOfUuid(v.s);
    }
    if v.JsString? && exists a, b, c, d, e :: UuidPieces(v.s, a, b, c, d, e) {
      var a, b, c, d, e :| UuidPieces(v.s, a, b, c, d, e);
      UuidOfPieces(v.s, a, b, c, d, e);
    }
  }

  // ----- required fields, prices and quantities -----

  /** validateRequired: null, undefined and the empty string are missing. */
  function ValidateRequired(v: JsValue, fieldName: string): (r: Option<string>)
    ensures r.Some? ==> r.value == fieldName + " is required"
  {
    if v.JsNull? || v.JsUndefined? || v == JsString("") then Some(fieldName + " is required") else None
  }

  /** Only those three values are missing: 0, false and the other falsy values are present. */
  lemma RequiredMeaning(v: JsValue, fieldName: string)
    ensures ValidateRequired(v, fieldName).None? <==> !v.JsNull? && !v.JsUndefined? && !(v.JsString? && v.s == "")
    ensures v == JsNum(Finite(0.0)) || v == JsBool(false) ==> ValidateRequired(v, fieldName).None?
  {
  }

  /** A price with at most two decimals: a whole number of hundredths. */
  predicate WholeHundredths(x: real) {
    x * 100.0 == (x * 100.0).Floor as real
  }

  /** validatePrice: the first failing check's message, or none. */
  function ValidatePrice(v: JsValue): (r: Option<string>)
    ensures !v.JsNum? ==> r == Some("Price must be a number")
    ensures v.JsNum? && Negative(v.n) ==> r == Some("Price cannot be negative")
    ensures v.JsNum? && !Negative(v.n) && !IsFinite(v.n) ==> r == Some("Price must be a valid finite number")
  {
    if !v.JsNum? then Some("Price must be a number")
    else if Negative(v.n) then Some("Price cannot be negative")
    else if !IsFinite(v.n) then Some("Price must be a valid finite number")
    else if Round(v.n.r * 100.0) as real / 100.0 != v.n.r then Some("Price can only have up to 2 decimal places")
    else None
  }

  lemma RoundHundredths(x: real)
    ensures Round(x * 100.0) as real / 100.0 == x <==> WholeHundredths(x)
  {
    var y := x * 100.0;
    if WholeHundredths(x) {
      assert (y + 0.5).Floor == y.Floor;
    }
  }

  /** A price passes exactly when it is a finite number, not negative, with whole hundredths. */
  lemma PriceMeaning(v: JsValue)
    ensures ValidatePrice(v).None? <==> v.JsNum? && v.n.Finite? && v.n.r >= 0.0 && WholeHundredths(v.n.r)
    ensures v.JsNum? && v.n.Finite? && v.n.r >= 0.0 && !WholeHundredths(v.n.r) ==>
      ValidatePrice(v) == Some("Price can only have up to 2 decimal places")
  {
    if v.JsNum? && v.n.Finite? {
      RoundHundredths(v.n.r);
    }
  }

  /** validateQuantity: the first failing check's message, or none. */
  function ValidateQuantity(v: JsValue): (r: Option<string>)
    ensures !(v.JsNum? && IsInteger(v.n)) ==> r == Some("Quantity must be an integer")
  {
    if !v.JsNum? || !IsInteger(v.n) then Some("Quantity must be an integer")
    else if v.n.r < 1.0 then Some("Quantity must be at least 1")
    else if v.n.r > 99.0 then Some("Quantity cannot exceed 99")
    else None
  }

  /** The JavaScript number q. */
  function Int(q: int): JsValue {
    JsNum(Finite(q as real))
  }

  /** A quantity passes exactly when it is one of the integers 1..99; otherwise the first broken bound is named. */
  lemma QuantityMeaning(v: JsValue)
    ensures ValidateQuantity(v).None? <==> exists q: int :: 1 <= q <= 99 && v == Int(q)
    ensures (exists q: int :: q < 1 && v == Int(q)) ==> ValidateQuantity(v) == Some("Quantity must be at least 1")
    ensures (exists q: int :: q > 99 && v == Int(q)) ==> ValidateQuantity(v) == Some("Quantity cannot exceed 99")
  {
    if ValidateQuantity(v).None? {
      var q := v.n.r.Floor;
      assert 1 <= q <= 99 && v == Int(q);
    }
  }
}
