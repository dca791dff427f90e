/** Bytes, optional values and the few constants that every layer of the proxy shares. */
module Common {
  /** uint8_t */
  type byte = x: int | 0 <= x < 256

  datatype Option<+T> = None | Some(value: T)

  function Min(a: nat, b: nat): nat {
    if a <= b then a else b
  }

  /** "%u" */
  function Decimal(n: nat): (d: seq<byte>)
    ensures |d| >= 1
  {
    if n < 10 then [48 + n] else Decimal(n / 10) + [48 + n % 10]
  }

  /** What digits say, read from the left, after `sofar`. */
  function ReadDecimal(sofar: nat, d: seq<byte>): int
    decreases |d|
  {
    if d == [] then sofar else if 48 <= d[0] <= 57 then ReadDecimal(10 * sofar + d[0] - 48, d[1..]) else -1
  }

  /** Decimal digits that say n, the first not 0 unless it is the only one. */
  predicate Numeral(d: seq<byte>, n: nat) {
    d != [] && (d[0] == 48 ==> |d| == 1) && ReadDecimal(0, d) == n
  }

  lemma {:induction false} ReadDecimalSnoc(sofar: nat, d: seq<byte>, c: byte)
    requires 48 <= c <= 57 && ReadDecimal(sofar, d) >= 0
    ensures ReadDecimal(sofar, d + [c]) == 10 * ReadDecimal(sofar, d) + (c - 48)
    decreases |d|
  {
    if d == [] {
      assert [c][1..] == [];
    } else {
      assert (d + [c])[0] == d[0] && (d + [c])[1..] == d[1..] + [c];
      ReadDecimalSnoc(10 * sofar + d[0] - 48, d[1..], c);
    }
  }

  lemma {:induction false} DecimalIsNumeral(n: nat)
    ensures Numeral(Decimal(n), n)
  {
    if n < 10 {
      assert [48 + n][1..] == [];
    } else {
      DecimalIsNumeral(n / 10);
      ReadDecimalSnoc(0, Decimal(n / 10), 48 + n % 10);
    }
  }

  function Power10(k: nat): nat {
    if k == 0 then 1 else 10 * Power10(k - 1)
  }

  lemma {:induction false} DecimalDigits(n: nat, digits: nat, bound: nat)
    requires digits >= 1 && n < bound && bound == Power10(digits)
    ensures |Decimal(n)| <= digits
    decreases digits
  {
    if n >= 10 {
      DecimalDigits(n / 10, digits - 1, bound / 10);
    }
  }

  /** A number below 65536 takes at most five digits. */
  lemma PortDigits(n: nat)
    requires n < 65536
    ensures |Decimal(n)| <= 5
  {
    assert Power10(5) == 100000 by {
      assert Power10(2) == 100 && Power10(4) == 10000;
    }
    DecimalDigits(n, 5, 100000);
  }
}
