/** Object identifiers of the project file. The backend draws each id from a
    random UUID (upper-cased, dashes dropped, first 24 characters); the model
    draws it from a counter instead and renders the counter as 24 upper-case
    hexadecimal digits, so that freshness is a theorem rather than a
    probability. */
module Ids {

  type ObjectId = string

  const IdLength: nat := 24
  const HexDigits: string := "0123456789ABCDEF"

  function Pow16(w: nat): (p: nat)
    ensures p > 0
  {
    if w == 0 then 1 else 16 * Pow16(w - 1)
  }

  /** Number of distinct ids: 16^24. */
  const IdSpace: nat := Pow16(IdLength)

  predicate IsHexChar(c: char)
  {
    c in HexDigits
  }

  /** What every id in the project file looks like: 24 upper-case hex digits. */
  predicate IsObjectId(s: string)
  {
    |s| == IdLength && forall i :: 0 <= i < |s| ==> IsHexChar(s[i])
  }

  function DigitValue(c: char): (d: nat)
    ensures d < 16
    ensures IsHexChar(c) ==> HexDigits[d] == c
  {
    if '0' <= c <= '9' then (c - '0') as nat
    else if 'A' <= c <= 'F' then (c - 'A') as nat + 10
    else 0
  }

  /** The low `width` hex digits of `n`, most significant first. */
  function ToHex(n: nat, width: nat): (s: string)
    ensures |s| == width
    ensures forall i :: 0 <= i < width ==> IsHexChar(s[i])
  {
    if width == 0 then ""
    else ToHex(n / 16, width - 1) + [HexDigits[n % 16]]
  }

  /** Reads a string of hex digits back as a number. */
  function FromHex(s: string): nat
  {
    if s == [] then 0 else FromHex(s[..|s| - 1]) * 16 + DigitValue(s[|s| - 1])
  }

  /** The id issued for serial number `n`. */
  function IdOf(n: nat): (id: ObjectId)
    ensures IsObjectId(id)
  {
    ToHex(n, IdLength)
  }

  /** A positive multiple of a positive number is at least that number. */
  lemma {:induction false} MulAtLeast(k: nat, d: nat)
    requires k > 0 && d > 0
    ensures k * d >= k
  {
    if d > 1 {
      MulAtLeast(k, d - 1);
      assert k * d == k * (d - 1) + k;
    }
  }

  /** Division with remainder determines quotient and remainder. */
  lemma DivModUnique(n: int, k: int, q: int, r: int)
    requires k > 0 && n == k * q + r && 0 <= r < k
    ensures n / k == q && n % k == r
  {
    var q', r' := n / k, n % k;
    assert n == k * q' + r';
    assert k * (q - q') == r' - r;
    assert k * (q' - q) == r - r';
    if q' < q {
      MulAtLeast(k, q - q');
    } else if q' > q {
      MulAtLeast(k, q' - q);
    }
  }

  /** The low `16 * p` part of `n` splits into its lowest digit and the low `p` part of `n / 16`. */
  lemma ModPow16Step(n: nat, p: nat)
    requires p > 0
    ensures n % (16 * p) == (n / 16) % p * 16 + n % 16
  {
    var q, r := n / 16, n % 16;
    var a, b := q / p, q % p;
    assert n == 16 * q + r;
    assert q == p * a + b;
    assert n == (16 * p) * a + (b * 16 + r);
    assert 0 <= b * 16 + r < 16 * p by {
      assert b <= p - 1;
      assert b * 16 <= (p - 1) * 16;
    }
    DivModUnique(n, 16 * p, a, b * 16 + r);
  }

  /** Decoding the rendered digits gives back the number modulo 16^width. */
  lemma {:induction false} FromToHex(n: nat, width: nat)
    ensures FromHex(ToHex(n, width)) == n % Pow16(width)
  {
    if width > 0 {
      var s := ToHex(n, width);
      assert s[..|s| - 1] == ToHex(n / 16, width - 1);
      assert s[|s| - 1] == HexDigits[n % 16];
      FromToHex(n / 16, width - 1);
      DigitOfHex(n % 16);
      assert FromHex(s) == (n / 16) % Pow16(width - 1) * 16 + n % 16;
      ModPow16Step(n, Pow16(width - 1));
    }
  }

  /** Each digit character reads back as its own value. */
  lemma DigitOfHex(d: nat)
    requires d < 16
    ensures DigitValue(HexDigits[d]) == d
  {
  }

  /** Serial numbers below 16^24 render to ids that read back as the same serial. */
  lemma SerialOfId(n: nat)
    requires n < IdSpace
    ensures FromHex(IdOf(n)) == n
  {
    FromToHex(n, IdLength);
    DivModUnique(n, IdSpace, 0, n);
  }

  /** Distinct serial numbers below 16^24 give distinct ids. */
  lemma IdOfInjective(a: nat, b: nat)
    requires a < IdSpace && b < IdSpace && a != b
    ensures IdOf(a) != IdOf(b)
  {
    SerialOfId(a);
    SerialOfId(b);
  }
}
