/** Password generation: URL-safe base64 (section 5 of RFC 4648) cut to the requested length. */
module Password {
  import opened Text

  type Octet = n: nat | n < 256
  type Sextet = n: nat | n < 64

  const PAD := '='

  function Symbol(v: Sextet): char {
    if v < 26 then ('A' as int + v) as char
    else if v < 52 then ('a' as int + (v - 26)) as char
    else if v < 62 then ('0' as int + (v - 52)) as char
    else if v == 62 then '-' else '_'
  }

  /** The value of an alphabet character. */
  function Value(c: char): Option<Sextet> {
    if 'A' <= c <= 'Z' then Some(c as int - 'A' as int)
    else if 'a' <= c <= 'z' then Some(c as int - 'a' as int + 26)
    else if '0' <= c <= '9' then Some(c as int - '0' as int + 52)
    else if c == '-' then Some(62)
    else if c == '_' then Some(63)
    else None
  }

  lemma ValueOfSymbol(v: Sextet)
    ensures Value(Symbol(v)) == Some(v)
  {}

  /** Four characters for three octets. */
  function Quad(a: Octet, b: Octet, c: Octet): (q: string)
    ensures |q| == 4 && forall i :: 0 <= i < 4 ==> Value(q[i]).Some?
  {
    ValueOfSymbol(a / 4);
    ValueOfSymbol(a % 4 * 16 + b / 16);
    ValueOfSymbol(b % 16 * 4 + c / 64);
    ValueOfSymbol(c % 64);
    [Symbol(a / 4), Symbol(a % 4 * 16 + b / 16), Symbol(b % 16 * 4 + c / 64), Symbol(c % 64)]
  }

  /** base64.URLEncoding.EncodeToString. */
  function Encode(b: seq<Octet>): (s: string)
    ensures |s| == (|b| + 2) / 3 * 4
    ensures forall i :: 0 <= i < |b| * 4 / 3 ==> Value(s[i]).Some?
  {
    if b == [] then ""
    else if |b| == 1 then Quad(b[0], 0, 0)[..2] + [PAD, PAD]
    else if |b| == 2 then Quad(b[0], b[1], 0)[..3] + [PAD]
    else Quad(b[0], b[1], b[2]) + Encode(b[3..])
  }

  /** generateSecurePassword, given the bytes that the random source delivered. */
  function Generate(b: seq<Octet>): (password: string)
    ensures |password| == |b|
    ensures forall i :: 0 <= i < |b| ==> Value(password[i]).Some?
  {
    Encode(b)[..|b|]
  }

  lemma {:induction false} EncodePrefix(b: seq<Octet>, k: nat)
    requires 3 * k <= |b|
    ensures 4 * k <= |Encode(b)| && Encode(b)[..4 * k] == Encode(b[..3 * k])
  {
    if k > 0 {
      EncodePrefix(b[3..], k - 1);
      assert b[..3 * k][3..] == b[3..][..3 * (k - 1)];
      assert Encode(b)[..4 * k] == Quad(b[0], b[1], b[2]) + Encode(b[3..])[..4 * (k - 1)];
    }
  }

  lemma {:induction false} QuadInjective(a: Octet, b: Octet, c: Octet, x: Octet, y: Octet, z: Octet)
    requires Quad(a, b, c) == Quad(x, y, z)
    ensures a == x && b == y && c == z
  {
    var p, q := Quad(a, b, c), Quad(x, y, z);
    hide Symbol, Value;
    ValueOfSymbol(a / 4);
    ValueOfSymbol(x / 4);
    ValueOfSymbol(a % 4 * 16 + b / 16);
    ValueOfSymbol(x % 4 * 16 + y / 16);
    ValueOfSymbol(b % 16 * 4 + c / 64);
    ValueOfSymbol(y % 16 * 4 + z / 64);
    ValueOfSymbol(c % 64);
    ValueOfSymbol(z % 64);
    assert p[0] == q[0] && p[1] == q[1] && p[2] == q[2] && p[3] == q[3];
  }

  lemma {:induction false} EncodeStep(b: seq<Octet>)
    requires |b| >= 3
    ensures Encode(b)[..4] == Quad(b[0], b[1], b[2]) && Encode(b)[4..] == Encode(b[3..])
  {
    var q, rest := Quad(b[0], b[1], b[2]), Encode(b[3..]);
    assert Encode(b) == q + rest;
    hide Quad, Encode;
    assert (q + rest)[..4] == q && (q + rest)[4..] == rest;
  }

  lemma {:induction false} EncodeInjective(b: seq<Octet>, d: seq<Octet>)
    requires |b| == |d| && |b| % 3 == 0 && Encode(b) == Encode(d)
    ensures b == d
  {
    hide Quad, Encode;
    if b != [] {
      EncodeStep(b);
      EncodeStep(d);
      QuadInjective(b[0], b[1], b[2], d[0], d[1], d[2]);
      EncodeInjective(b[3..], d[3..]);
      assert b == b[..3] + b[3..] && d == d[..3] + d[3..];
    }
  }

  /**
   When four divides the length, the password is the encoding of the first three quarters of the
   random bytes: it determines them, and it depends on nothing else.
   */
  lemma PasswordIsThreeQuarters(b: seq<Octet>, d: seq<Octet>)
    requires |b| == |d| && |b| % 4 == 0
    ensures var k := |b| / 4 * 3;
      && Generate(b) == Encode(b[..k])
      && (Generate(b) == Generate(d) <==> b[..k] == d[..k])
  {
    hide Encode;
    var k := |b| / 4;
    EncodePrefix(b, k);
    EncodePrefix(d, k);
    if Generate(b) == Generate(d) {
      EncodeInjective(b[..3 * k], d[..3 * k]);
    }
  }
}
