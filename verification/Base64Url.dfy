/** `base64.RawURLEncoding` (section 5 of RFC 4648, no padding), and the tokens and PKCE
    verifiers the relying party draws with it (rp/authrequest.go, rp/pkce.go). */
module Base64Url {
  import opened Correlations

  /** The URL and filename safe alphabet: A-Z, a-z, 0-9, "-", "_". */
  function Digit(n: int): char
    requires 0 <= n < 64
  {
    if n < 26 then ('A' as int + n) as char
    else if n < 52 then ('a' as int + n - 26) as char
    else if n < 62 then ('0' as int + n - 52) as char
    else if n == 62 then '-'
    else '_'
  }

  function Value(c: char): Option<int> {
    if 'A' <= c <= 'Z' then Some(c as int - 'A' as int)
    else if 'a' <= c <= 'z' then Some(c as int - 'a' as int + 26)
    else if '0' <= c <= '9' then Some(c as int - '0' as int + 52)
    else if c == '-' then Some(62)
    else if c == '_' then Some(63)
    else None
  }

  lemma ValueOfDigit(n: int)
    requires 0 <= n < 64
    ensures Value(Digit(n)) == Some(n)
  {}

  type Sextet = n: int | 0 <= n < 64

  /** Three bytes are four sextets; one or two left over are two or three, padded with zero bits. */
  function Sextets(b: seq<Byte>): (v: seq<Sextet>)
    ensures |v| == (4 * |b| + 2) / 3
  {
    if |b| == 0 then []
    else if |b| == 1 then [b[0] / 4, b[0] % 4 * 16]
    else if |b| == 2 then [b[0] / 4, b[0] % 4 * 16 + b[1] / 16, b[1] % 16 * 4]
    else [b[0] / 4, b[0] % 4 * 16 + b[1] / 16, b[1] % 16 * 4 + b[2] / 64, b[2] % 64] + Sextets(b[3..])
  }

  /** Unused trailing bits are ignored; a single left-over sextet is an error. */
  function Octets(v: seq<Sextet>): Option<seq<Byte>> {
    if |v| == 0 then Some([])
    else if |v| == 1 then None
    else
      var v0: int, v1: int := v[0], v[1];
      if |v| == 2 then Some([v0 * 4 + v1 / 16])
      else
        var v2: int := v[2];
        if |v| == 3 then Some([v0 * 4 + v1 / 16, v1 % 16 * 16 + v2 / 4])
        else
          var v3: int := v[3];
          match Octets(v[4..])
          case None => None
          case Some(rest) => Some([v0 * 4 + v1 / 16, v1 % 16 * 16 + v2 / 4, v2 % 4 * 64 + v3] + rest)
  }

  function Digits(v: seq<Sextet>): string {
    seq(|v|, i requires 0 <= i < |v| => Digit(v[i]))
  }

  function Encode(b: seq<Byte>): string {
    Digits(Sextets(b))
  }

  /** Go's decoder skips line breaks and, not being strict, accepts any trailing bits. */
  function Decode(s: string): Option<seq<Byte>> {
    DecodeDigits(WithoutLineBreaks(s))
  }

  function WithoutLineBreaks(s: string): string {
    if s == "" then ""
    else (if s[0] == '\r' || s[0] == '\n' then "" else [s[0]]) + WithoutLineBreaks(s[1..])
  }

  function DecodeDigits(s: string): Option<seq<Byte>> {
    if forall i :: 0 <= i < |s| ==> Value(s[i]).Some?
    then Octets(seq(|s|, i requires 0 <= i < |s| => ValueOr0(s[i])))
    else None
  }

  function ValueOr0(c: char): Sextet {
    if Value(c).Some? then Value(c).value else 0
  }

  /** The bytes of a group come back from its sextets. */
  lemma Regroup(x: Byte, y: Byte, z: Byte)
    ensures x / 4 * 4 + (x % 4 * 16 + y / 16) / 16 == x
    ensures (x % 4 * 16 + y / 16) % 16 * 16 + (y % 16 * 4 + z / 64) / 4 == y
    ensures (y % 16 * 4 + z / 64) % 4 * 64 + z % 64 == z
  {}

  lemma FullGroup(x: Byte, y: Byte, z: Byte, v0: Sextet, v1: Sextet, v2: Sextet, v3: Sextet, more: seq<Sextet>,
                  rest: seq<Byte>)
    requires x == v0 * 4 + v1 / 16 && y == v1 % 16 * 16 + v2 / 4 && z == v2 % 4 * 64 + v3
    requires Octets(more) == Some(rest)
    ensures Octets([v0, v1, v2, v3] + more) == Some([x, y, z] + rest)
  {
    assert ([v0, v1, v2, v3] + more)[4..] == more;
  }

  lemma OneByte(x: Byte, v0: Sextet, v1: Sextet)
    requires x == v0 * 4 + v1 / 16
    ensures Octets([v0, v1]) == Some([x])
  {}

  lemma TwoBytes(x: Byte, y: Byte, v0: Sextet, v1: Sextet, v2: Sextet)
    requires x == v0 * 4 + v1 / 16 && y == v1 % 16 * 16 + v2 / 4
    ensures Octets([v0, v1, v2]) == Some([x, y])
  {}

  lemma {:induction false} OctetsOfSextets(b: seq<Byte>)
    ensures Octets(Sextets(b)) == Some(b)
  {
    var v := Sextets(b);
    if |b| == 1 {
      Regroup(b[0], 0, 0);
      OneByte(b[0], v[0], v[1]);
      assert v == [v[0], v[1]] && b == [b[0]];
    } else if |b| == 2 {
      Regroup(b[0], b[1], 0);
      TwoBytes(b[0], b[1], v[0], v[1], v[2]);
      assert v == [v[0], v[1], v[2]] && b == [b[0], b[1]];
    } else if |b| > 2 {
      OctetsOfSextets(b[3..]);
      Regroup(b[0], b[1], b[2]);
      FullGroup(b[0], b[1], b[2], v[0], v[1], v[2], v[3], Sextets(b[3..]), b[3..]);
      assert v == [v[0], v[1], v[2], v[3]] + Sextets(b[3..]);
      assert b == [b[0], b[1], b[2]] + b[3..];
    }
  }

  /** Every character of an encoding stands for a sextet, and its length is fixed by the input's. */
  lemma EncodeShape(b: seq<Byte>)
    ensures |Encode(b)| == (4 * |b| + 2) / 3
    ensures forall i :: 0 <= i < |Encode(b)| ==> Value(Encode(b)[i]) == Some(Sextets(b)[i])
  {
    DigitsShape(Sextets(b));
  }

  lemma DigitsShape(v: seq<Sextet>)
    ensures forall i :: 0 <= i < |Digits(v)| ==> Value(Digits(v)[i]) == Some(v[i])
  {
    forall i | 0 <= i < |v| ensures Value(Digits(v)[i]) == Some(v[i]) {
      ValueOfDigit(v[i]);
    }
  }

  lemma {:induction false} NoLineBreaks(s: string)
    requires forall i :: 0 <= i < |s| ==> s[i] != '\r' && s[i] != '\n'
    ensures WithoutLineBreaks(s) == s
  {
    if s != "" {
      NoLineBreaks(s[1..]);
    }
  }

  /** Decoding undoes encoding, for every byte string. */
  lemma RoundTrip(b: seq<Byte>)
    ensures Decode(Encode(b)) == Some(b)
  {
    var s := Encode(b);
    EncodeShape(b);
    NoLineBreaks(s);
    OctetsOfSextets(b);
    assert seq(|s|, i requires 0 <= i < |s| => ValueOr0(s[i])) == Sextets(b);
  }

  lemma {:induction false} LineBreaksGo(s: string)
    ensures multiset(WithoutLineBreaks(s)) == multiset(s)['\r' := 0]['\n' := 0]
  {
    if s != "" {
      LineBreaksGo(s[1..]);
      assert s == [s[0]] + s[1..];
    }
  }

  lemma {:induction false} OctetsJustWhen(v: seq<Sextet>)
    ensures Octets(v).Some? <==> |v| % 4 != 1
  {
    if |v| > 3 {
      OctetsJustWhen(v[4..]);
    }
  }

  predicate DigitOrBreak(c: char) {
    Value(c).Some? || c == '\r' || c == '\n'
  }

  /** A text decodes just when every character is a digit or a line break, and the digits are
      not one more than a multiple of four. */
  lemma DecodesJustWhen(s: string)
    ensures Decode(s).Some? <==>
              (forall c :: c in s ==> DigitOrBreak(c)) && |multiset(s)['\r' := 0]['\n' := 0]| % 4 != 1
  {
    var digits := WithoutLineBreaks(s);
    LineBreaksGo(s);
    OnlyDigitsLeft(s);
    if forall c :: c in digits ==> Value(c).Some? {
      assert forall i :: 0 <= i < |digits| ==> digits[i] in digits;
      OctetsJustWhen(seq(|digits|, i requires 0 <= i < |digits| => ValueOr0(digits[i])));
    } else {
      var c :| c in digits && Value(c).None?;
      var i :| 0 <= i < |digits| && digits[i] == c;
    }
  }

  lemma OnlyDigitsLeft(s: string)
    ensures (forall c :: c in s ==> DigitOrBreak(c)) <==> (forall c :: c in WithoutLineBreaks(s) ==> Value(c).Some?)
    ensures |WithoutLineBreaks(s)| == |multiset(s)['\r' := 0]['\n' := 0]|
  {
    LineBreaksGo(s);
    var digits := WithoutLineBreaks(s);
    assert |multiset(digits)| == |digits|;
    forall c ensures c in digits <==> c in s && c != '\r' && c != '\n' {
      assert c in digits <==> c in multiset(digits);
      assert c in s <==> c in multiset(s);
    }
  }

  /** So different bytes never share an encoding. */
  lemma Injective(b: seq<Byte>, b': seq<Byte>)
    requires Encode(b) == Encode(b')
    ensures b == b'
  {
    RoundTrip(b);
    RoundTrip(b');
  }

  /** Table 2 of RFC 4648: three runs of consecutive characters, and two more. */
  lemma DigitsRun(n: int)
    requires 0 <= n < 61 && n != 25 && n != 51
    ensures Digit(0) == 'A' && Digit(26) == 'a' && Digit(52) == '0' && Digit(62) == '-' && Digit(63) == '_'
    ensures Digit(n + 1) as int == Digit(n) as int + 1
  {}

  /** An encoding says the number its bytes say, most significant first: three bytes in four
      sextets, and one or two bytes left over in two or three, filled up with zero bits. */
  lemma {:induction false} SameNumbers(b: seq<Byte>, i: nat)
    requires 3 * i < |b|
    ensures GroupsAgree(b[3 * i..], Sextets(b)[4 * i..])
  {
    if i == 0 {
      assert b[0..] == b && Sextets(b)[0..] == Sextets(b);
      FirstGroup(b);
    } else {
      SameNumbers(b[3..], i - 1);
      assert b[3 * i..] == b[3..][3 * (i - 1)..];
      assert Sextets(b)[4..] == Sextets(b[3..]);
      assert Sextets(b)[4 * i..] == Sextets(b)[4..][4 * (i - 1)..];
    }
  }

  /** The first group of the bytes and of the sextets, up to three bytes in up to four sextets. */
  predicate GroupsAgree(b: seq<Byte>, v: seq<Sextet>)
    requires |b| > 0
  {
    if |b| > 2 then |v| >= 4 && Group(b[0], b[1], b[2], v[0], v[1], v[2], v[3])
    else if |b| == 2 then |v| == 3 && Group(b[0], b[1], 0, v[0], v[1], v[2], 0)
    else |v| == 2 && Group(b[0], 0, 0, v[0], v[1], 0, 0)
  }

  lemma FirstGroup(b: seq<Byte>)
    requires |b| > 0
    ensures GroupsAgree(b, Sextets(b))
  {
    if |b| > 2 {
      SplitGroup(b[0], b[1], b[2]);
    } else if |b| == 2 {
      SplitGroup(b[0], b[1], 0);
    } else {
      SplitGroup(b[0], 0, 0);
    }
  }

  predicate Group(x: Byte, y: Byte, z: Byte, v0: Sextet, v1: Sextet, v2: Sextet, v3: Sextet) {
    65536 * x + 256 * y + z == 262144 * v0 + 4096 * v1 + 64 * v2 + v3
  }

  lemma SplitGroup(x: Byte, y: Byte, z: Byte)
    ensures Group(x, y, z, x / 4, x % 4 * 16 + y / 16, y % 16 * 4 + z / 64, z % 64)
  {}

  const VERIFIER_MIN := 43
  const VERIFIER_MAX := 128

  /** The unreserved characters section 4.1 of RFC 7636 allows. */
  predicate Unreserved(c: char) {
    'A' <= c <= 'Z' || 'a' <= c <= 'z' || '0' <= c <= '9' || c in {'-', '.', '_', '~'}
  }

  /** `validateCodeVerifier`. */
  predicate ValidVerifier(v: string) {
    VERIFIER_MIN <= |v| <= VERIFIER_MAX && forall i :: 0 <= i < |v| ==> Unreserved(v[i])
  }

  /** Verifiers are written in the alphabet of the encoding and two more characters. */
  lemma VerifiersAre(v: string)
    ensures ValidVerifier(v) <==>
              43 <= |v| <= 128 && forall i :: 0 <= i < |v| ==> Value(v[i]).Some? || v[i] in {'.', '~'}
  {}

  /** A random source that fails, or one that fills the buffer. */
  type Random = Option<seq<Byte>>

  /** `randomToken` and `generateCodeVerifier` before its own check. */
  function RandomToken(r: Random): Option<string> {
    if r.None? then None else Some(Encode(r.value))
  }

  function GenerateVerifier(r: Random): Option<string> {
    if r.None? || !ValidVerifier(Encode(r.value)) then None else Some(Encode(r.value))
  }

  /** Without randomness there is no token; with it the token is the bytes and nothing but the bytes. */
  lemma TokensAreTheBytes(r: Random)
    ensures RandomToken(r).Some? <==> r.Some?
    ensures GenerateVerifier(r).Some? ==> GenerateVerifier(r) == RandomToken(r)
    ensures r.Some? ==> Decode(RandomToken(r).value) == r
    ensures GenerateVerifier(r).Some? <==> r.Some? && ValidVerifier(Encode(r.value))
  {
    if r.Some? {
      RoundTrip(r.value);
    }
  }

  /** Whenever the random source delivers its 32 bytes, the verifier passes its own check
      and is as unpredictable as the bytes: it determines them. */
  lemma VerifierNeverRejected(b: seq<Byte>)
    requires |b| == 32
    ensures GenerateVerifier(Some(b)) == Some(Encode(b)) && |Encode(b)| == 43
    ensures forall b' :: Encode(b') == Encode(b) ==> b' == b
  {
    EncodeShape(b);
    assert forall i :: 0 <= i < |Encode(b)| ==> Value(Encode(b)[i]).Some? && Unreserved(Encode(b)[i]);
    forall b' | Encode(b') == Encode(b) ensures b' == b {
      Injective(b', b);
    }
  }
}
