/** The PKCE check, down to the bits of the base64url decoder it calls. */
module Pkce {
  import opened Wrappers

  type Byte = x: nat | x < 256
  type Sextet = x: nat | x < 64

  // ------------------------------------------------------------- base64url (RFC 4648)

  /** Section 5 of RFC 4648. */
  function ValueOf(c: char): Option<Sextet> {
    if 'A' <= c <= 'Z' then Some(c as int - 'A' as int)
    else if 'a' <= c <= 'z' then Some(c as int - 'a' as int + 26)
    else if '0' <= c <= '9' then Some(c as int - '0' as int + 52)
    else if c == '-' then Some(62)
    else if c == '_' then Some(63)
    else None
  }

  /** The decoder also knows the two characters of the other alphabet. */
  function DecoderValue(c: char): Option<Sextet> {
    if c == '+' then Some(62) else if c == '/' then Some(63) else ValueOf(c)
  }

  function CharOf(v: Sextet): (c: char)
    ensures ValueOf(c) == Some(v)
  {
    if v < 26 then (v + 'A' as int) as char
    else if v < 52 then (v - 26 + 'a' as int) as char
    else if v < 62 then (v - 52 + '0' as int) as char
    else if v == 62 then '-' else '_'
  }

  predicate UrlSafe(s: string) {
    forall i | 0 <= i < |s| :: ValueOf(s[i]).Some?
  }

  /** Where the decoder is inside a group of four: the bits not yet written out. */
  datatype Quad = Start | One(v: Sextet) | Two(low4: nat) | Three(low2: nat)

  function Emit(b: nat, r: Option<seq<nat>>): Option<seq<nat>> {
    match r
    case None => None
    case Some(bytes) => Some([b] + bytes)
  }

  /**
    Python's lenient decoder.  Characters outside the alphabet are skipped; a
    group is closed by as many '=' as it lacks, which also ends the input;
    anything else left over is an error; leftover bits are dropped unseen.
   */
  function Decode(s: string, q: Quad, pads: nat): Option<seq<nat>> {
    if s == "" then (if q.Start? then Some([]) else None)
    else if s[0] == '=' then
      if (q.Two? && pads + 1 >= 2) || q.Three? then Some([]) else Decode(s[1..], q, if q.Two? then pads + 1 else pads)
    else match DecoderValue(s[0])
      case None => Decode(s[1..], q, pads)
      case Some(v) =>
        match q
        case Start => Decode(s[1..], One(v), 0)
        case One(a) => Emit(a * 4 + v / 16, Decode(s[1..], Two(v % 16), 0))
        case Two(low4) => Emit(low4 * 16 + v / 4, Decode(s[1..], Three(v % 4), 0))
        case Three(low2) => Emit(low2 * 64 + v, Decode(s[1..], Start, 0))
  }

  function UrlsafeB64Decode(s: string): Option<seq<nat>> {
    Decode(s, Start, 0)
  }

  /** Section 4 of RFC 4648, without padding. */
  function EncodeUnpadded(b: seq<Byte>): string {
    if b == [] then ""
    else if |b| == 1 then [CharOf(b[0] / 4), CharOf(b[0] % 4 * 16)]
    else if |b| == 2 then [CharOf(b[0] / 4), CharOf(b[0] % 4 * 16 + b[1] / 16), CharOf(b[1] % 16 * 4)]
    else
      [CharOf(b[0] / 4), CharOf(b[0] % 4 * 16 + b[1] / 16), CharOf(b[1] % 16 * 4 + b[2] / 64), CharOf(b[2] % 64)]
      + EncodeUnpadded(b[3..])
  }

  // --------------------------------------------------------------------- the check

  /** The upper case of a character: of what lies outside ASCII, the long s and the sharp s become S and SS. */
  function UpperChar(c: char): string {
    if 'a' <= c <= 'z' then [(c as int - 'a' as int + 'A' as int) as char]
    else if c == '\U{017F}' then "S"
    else if c == '\U{00DF}' then "SS"
    else [c]
  }

  function Upper(s: string): string {
    if s == "" then "" else UpperChar(s[0]) + Upper(s[1..])
  }

  predicate Accepted(challenge: string) {
    |challenge| == 43 && UrlSafe(challenge)
  }

  /** `validate_pkce_params`: the message of the ValueError, or None. */
  function ValidatePkce(challenge: Option<string>, m: Option<string>): Option<string> {
    if challenge.None? || challenge.value == "" then Some("code_challenge is required")
    else if m.None? || m.value == "" then Some("code_challenge_method is required")
    else if Upper(m.value) != "S256" then Some("only S256 is supported")
    else if !Accepted(challenge.value) then Some("code_challenge must be URL-safe base64")
    else if UrlsafeB64Decode(challenge.value + "=").None? then Some("code_challenge must be URL-safe base64")
    else None
  }

  // -------------------------------------------------------------------- group by group

  function Val(c: char): Sextet
    requires ValueOf(c).Some?
  {
    ValueOf(c).value
  }

  function FirstByte(a: Sextet, b: Sextet): Byte { a * 4 + b / 16 }
  function SecondByte(b: Sextet, c: Sextet): Byte { b % 16 * 16 + c / 4 }
  function ThirdByte(c: Sextet, d: Sextet): Byte { c % 4 * 64 + d }

  /** One character of the alphabet moves the decoder one place on. */
  lemma DecodeNext(s: string, q: Quad, pads: nat)
    requires s != "" && ValueOf(s[0]).Some?
    ensures
      var v := Val(s[0]);
      Decode(s, q, pads) ==
        match q
        case Start => Decode(s[1..], One(v), 0)
        case One(a) => Emit(a * 4 + v / 16, Decode(s[1..], Two(v % 16), 0))
        case Two(low4) => Emit(low4 * 16 + v / 4, Decode(s[1..], Three(v % 4), 0))
        case Three(low2) => Emit(low2 * 64 + v, Decode(s[1..], Start, 0))
  {
  }

  function Group(a: Sextet, b: Sextet, c: Sextet, d: Sextet): seq<nat> {
    [FirstByte(a, b), SecondByte(b, c), ThirdByte(c, d)]
  }

  function Prepend(bytes: seq<nat>, r: Option<seq<nat>>): Option<seq<nat>> {
    if r.None? then None else Some(bytes + r.value)
  }

  lemma EmitThree(x: nat, y: nat, z: nat, r: Option<seq<nat>>)
    ensures Emit(x, Emit(y, Emit(z, r))) == Prepend([x, y, z], r)
  {
    if r.Some? { assert [x] + ([y] + ([z] + r.value)) == [x, y, z] + r.value; }
  }

  lemma DecodeFourth(c: Sextet, d: char, rest: string)
    requires ValueOf(d).Some?
    ensures Decode([d] + rest, Three(c % 4), 0) == Emit(ThirdByte(c, Val(d)), Decode(rest, Start, 0))
  {
    assert ([d] + rest)[1..] == rest;
    DecodeNext([d] + rest, Three(c % 4), 0);
  }

  lemma DecodeThird(b: Sextet, c: char, rest: string)
    requires ValueOf(c).Some?
    ensures Decode([c] + rest, Two(b % 16), 0) == Emit(SecondByte(b, Val(c)), Decode(rest, Three(Val(c) % 4), 0))
  {
    assert ([c] + rest)[1..] == rest;
    DecodeNext([c] + rest, Two(b % 16), 0);
  }

  lemma DecodeFirstTwo(a: char, b: char, rest: string)
    requires ValueOf(a).Some? && ValueOf(b).Some?
    ensures Decode([a] + ([b] + rest), Start, 0) == Emit(FirstByte(Val(a), Val(b)), Decode(rest, Two(Val(b) % 16), 0))
  {
    assert ([a] + ([b] + rest))[1..] == [b] + rest && ([b] + rest)[1..] == rest;
    DecodeNext([a] + ([b] + rest), Start, 0);
    DecodeNext([b] + rest, One(Val(a)), 0);
  }

  lemma DecodeLastTwo(b: Sextet, c: char, d: char, rest: string)
    requires ValueOf(c).Some? && ValueOf(d).Some?
    ensures Decode([c] + ([d] + rest), Two(b % 16), 0)
         == Emit(SecondByte(b, Val(c)), Emit(ThirdByte(Val(c), Val(d)), Decode(rest, Start, 0)))
  {
    DecodeThird(b, c, [d] + rest);
    DecodeFourth(Val(c), d, rest);
  }

  /** A full group of four characters gives three bytes. */
  lemma DecodeGroup(a: char, b: char, c: char, d: char, rest: string)
    requires ValueOf(a).Some? && ValueOf(b).Some? && ValueOf(c).Some? && ValueOf(d).Some?
    ensures Decode([a, b, c, d] + rest, Start, 0) ==
            Prepend(Group(Val(a), Val(b), Val(c), Val(d)), Decode(rest, Start, 0))
  {
    OneByOne(a, b, c, d, rest);
    DecodeFour(a, b, c, d, rest);
    EmitThree(FirstByte(Val(a), Val(b)), SecondByte(Val(b), Val(c)), ThirdByte(Val(c), Val(d)), Decode(rest, Start, 0));
  }

  lemma OneByOne(a: char, b: char, c: char, d: char, rest: string)
    ensures [a, b, c, d] + rest == [a] + ([b] + ([c] + ([d] + rest)))
  {
  }

  lemma DecodeFour(a: char, b: char, c: char, d: char, rest: string)
    requires ValueOf(a).Some? && ValueOf(b).Some? && ValueOf(c).Some? && ValueOf(d).Some?
    ensures Decode([a] + ([b] + ([c] + ([d] + rest))), Start, 0)
         == Emit(FirstByte(Val(a), Val(b)),
                 Emit(SecondByte(Val(b), Val(c)), Emit(ThirdByte(Val(c), Val(d)), Decode(rest, Start, 0))))
  {
    DecodeFirstTwo(a, b, [c] + ([d] + rest));
    DecodeLastTwo(Val(b), c, d, rest);
  }

  /** The last, incomplete group: three characters and one '='. */
  lemma DecodeLast(a: char, b: char, c: char)
    requires ValueOf(a).Some? && ValueOf(b).Some? && ValueOf(c).Some?
    ensures Decode([a, b, c] + "=", Start, 0) == Some([FirstByte(Val(a), Val(b)), SecondByte(Val(b), Val(c))])
  {
    assert [a, b, c] + "=" == [a] + ([b] + ([c] + "="));
    DecodeFirstTwo(a, b, [c] + "=");
    DecodeThird(Val(b), c, "=");
    assert Decode("=", Three(Val(c) % 4), 0) == Some([]);
    var x, y := FirstByte(Val(a), Val(b)), SecondByte(Val(b), Val(c));
    assert [x] + ([y] + []) == [x, y];
  }

  /** The bytes that `n` whole groups and one group of three stand for. */
  function Bytes(s: string, n: nat): seq<nat>
    requires UrlSafe(s) && |s| == 4 * n + 3
    decreases n
  {
    if n == 0 then [FirstByte(Val(s[0]), Val(s[1])), SecondByte(Val(s[1]), Val(s[2]))]
    else Group(Val(s[0]), Val(s[1]), Val(s[2]), Val(s[3])) + Bytes(s[4..], n - 1)
  }

  lemma {:induction false} DecodeIsBytes(s: string, n: nat)
    requires UrlSafe(s) && |s| == 4 * n + 3
    ensures UrlsafeB64Decode(s + "=") == Some(Bytes(s, n)) && |Bytes(s, n)| == 3 * n + 2
    ensures forall i | 0 <= i < |Bytes(s, n)| :: Bytes(s, n)[i] < 256
    decreases n
  {
    if n == 0 {
      assert s == [s[0], s[1], s[2]];
      DecodeLast(s[0], s[1], s[2]);
    } else {
      DecodeIsBytes(s[4..], n - 1);
      assert s + "=" == [s[0], s[1], s[2], s[3]] + (s[4..] + "=");
      DecodeGroup(s[0], s[1], s[2], s[3], s[4..] + "=");
    }
  }

  // ---------------------------------------------------------------------- theorems

  /** The alphabet of section 5 of RFC 4648: upper case, lower case, digits, and two more, each in order. */
  lemma AlphabetIsStandard(v: Sextet)
    ensures CharOf(0) == 'A' && CharOf(25) == 'Z' && CharOf(26) == 'a' && CharOf(51) == 'z'
    ensures CharOf(52) == '0' && CharOf(61) == '9' && CharOf(62) == '-' && CharOf(63) == '_'
    ensures v !in {25, 51, 61, 62, 63} ==> CharOf(v + 1) as int == CharOf(v) as int + 1
  {
  }

  /** Four characters and their three bytes are the same 24 bits; three and two the same but for the slack. */
  lemma SameNumber(a: Sextet, b: Sextet, c: Sextet, d: Sextet)
    ensures FirstByte(a, b) * 65536 + SecondByte(b, c) * 256 + ThirdByte(c, d) == a * 262144 + b * 4096 + c * 64 + d
    ensures FirstByte(a, b) * 256 + SecondByte(b, c) == (a * 4096 + b * 64 + c) / 4
  {
  }

  /** Every challenge that passes the 43-character check decodes, with one '=', to 32 bytes. */
  lemma AcceptedDecodesTo32(c: string)
    requires Accepted(c)
    ensures UrlsafeB64Decode(c + "=").Some? && |UrlsafeB64Decode(c + "=").value| == 32
    ensures forall i | 0 <= i < 32 :: UrlsafeB64Decode(c + "=").value[i] < 256
  {
    DecodeIsBytes(c, 10);
  }

  /** The '=' is needed: without it the decoder finds a group left open. */
  lemma {:induction false} UnpaddedIsRejected(s: string, n: nat)
    requires UrlSafe(s) && |s| == 4 * n + 3
    ensures UrlsafeB64Decode(s).None?
    decreases n
  {
    if n == 0 {
      assert s == [s[0]] + ([s[1]] + ([s[2]] + ""));
      DecodeFirstTwo(s[0], s[1], [s[2]] + "");
      DecodeThird(Val(s[1]), s[2], "");
    } else {
      UnpaddedIsRejected(s[4..], n - 1);
      assert s == [s[0], s[1], s[2], s[3]] + s[4..];
      DecodeGroup(s[0], s[1], s[2], s[3], s[4..]);
    }
  }

  lemma {:induction false} UpperDigits(m: string, d: string)
    requires Upper(m) == d && forall c <- d :: '0' <= c <= '9'
    ensures m == d
  {
    if m != "" {
      var u := UpperChar(m[0]);
      assert d == u + Upper(m[1..]) && d[0] == u[0] && d[0] in d;
      assert u == [m[0]];
      assert Upper(m[1..]) == d[1..];
      assert forall c <- d[1..] :: c in d;
      UpperDigits(m[1..], d[1..]);
      assert m == [m[0]] + m[1..] && d == [d[0]] + d[1..];
    }
  }

  /** The three spellings of the method that pass. */
  lemma UpperIsS256(m: string)
    ensures Upper(m) == "S256" <==> m == "S256" || m == "s256" || m == "\U{017F}256"
  {
    DigitsStay();
    if m != "" {
      assert Upper(m) == UpperChar(m[0]) + Upper(m[1..]);
      if Upper(m) == "S256" { SThenDigits(UpperChar(m[0]), Upper(m[1..]), m); }
      if m == "S256" || m == "s256" || m == "\U{017F}256" {
        assert m[1..] == "256" && UpperChar(m[0]) == "S";
      }
    }
  }

  lemma DigitsStay()
    ensures Upper("256") == "256"
  {
    assert "256"[1..] == "56" && "56"[1..] == "6" && "6"[1..] == "";
  }

  lemma SThenDigits(u: string, rest: string, m: string)
    requires m != "" && u == UpperChar(m[0]) && rest == Upper(m[1..]) && u + rest == "S256"
    ensures m == [m[0]] + "256" && (m[0] == 'S' || m[0] == 's' || m[0] == '\U{017F}')
  {
    assert (u + rest)[0] == u[0] && (u + rest)[1] == '2';
    assert |u| == 1;
    assert rest == (u + rest)[1..] == "256";
    UpperDigits(m[1..], "256");
  }

  lemma AcceptedExactly(c: string)
    ensures Accepted(c) <==>
            && |c| == 43
            && forall x <- c :: 'A' <= x <= 'Z' || 'a' <= x <= 'z' || '0' <= x <= '9' || x == '-' || x == '_'
  {
    forall x <- c ensures exists i :: 0 <= i < |c| && c[i] == x {}
    assert forall i | 0 <= i < |c| :: c[i] in c;
  }

  /** So the check accepts exactly the 43-character challenges with method S256: its last branch never raises. */
  lemma ValidatePkceIsExact(challenge: Option<string>, m: Option<string>)
    ensures ValidatePkce(challenge, m).None? <==>
            && challenge.Some? && |challenge.value| == 43
            && (forall c <- challenge.value ::
                  'A' <= c <= 'Z' || 'a' <= c <= 'z' || '0' <= c <= '9' || c == '-' || c == '_')
            && m.Some? && (m.value == "S256" || m.value == "s256" || m.value == "\U{017F}256")
  {
    if m.Some? { UpperIsS256(m.value); }
    if challenge.Some? {
      AcceptedExactly(challenge.value);
      if Accepted(challenge.value) { AcceptedDecodesTo32(challenge.value); }
    }
  }

  /** The message names the first thing that is wrong. */
  lemma PkceErrorIsNamed(challenge: Option<string>, m: Option<string>)
    ensures
      var noChallenge, noMethod := challenge.None? || challenge.value == "", m.None? || m.value == "";
      var e := ValidatePkce(challenge, m);
      && (e == Some("code_challenge is required") <==> noChallenge)
      && (e == Some("code_challenge_method is required") <==> !noChallenge && noMethod)
      && (e == Some("only S256 is supported") <==>
            !noChallenge && !noMethod && m.value != "S256" && m.value != "s256" && m.value != "\U{017F}256")
  {
    if m.Some? { UpperIsS256(m.value); }
    assert |"code_challenge is required"| == 26 && |"code_challenge_method is required"| == 33;
    assert |"only S256 is supported"| == 22 && |"code_challenge must be URL-safe base64"| == 38;
  }

  lemma FirstTwoBits(x: Byte, y: Byte)
    ensures x % 4 * 16 + y / 16 < 64 && (x % 4 * 16 + y / 16) / 16 == x % 4 && (x % 4 * 16 + y / 16) % 16 == y / 16
    ensures FirstByte(x / 4, x % 4 * 16 + y / 16) == x
  {
  }

  lemma MiddleFourBits(x: Byte, y: Byte, z: Byte)
    ensures y % 16 * 4 + z / 64 < 64 && (y % 16 * 4 + z / 64) / 4 == y % 16 && (y % 16 * 4 + z / 64) % 4 == z / 64
    ensures SecondByte(x % 4 * 16 + y / 16, y % 16 * 4 + z / 64) == y
    ensures ThirdByte(y % 16 * 4 + z / 64, z % 64) == z
  {
    FirstTwoBits(x, y);
  }

  lemma GroupBack(x: Byte, y: Byte, z: Byte)
    ensures x % 4 * 16 + y / 16 < 64 && y % 16 * 4 + z / 64 < 64
    ensures Group(x / 4, x % 4 * 16 + y / 16, y % 16 * 4 + z / 64, z % 64) == [x, y, z]
  {
    FirstTwoBits(x, y);
    MiddleFourBits(x, y, z);
  }

  lemma {:induction false} EncodeThenBytes(b: seq<Byte>, n: nat)
    requires |b| == 3 * n + 2
    ensures |EncodeUnpadded(b)| == 4 * n + 3 && UrlSafe(EncodeUnpadded(b))
    ensures Bytes(EncodeUnpadded(b), n) == b
    decreases n
  {
    if n == 0 {
      EncodeTwo(b);
    } else {
      EncodeThenBytes(b[3..], n - 1);
      EncodeMore(b);
      GroupBack(b[0], b[1], b[2]);
      assert b == [b[0], b[1], b[2]] + b[3..];
    }
  }

  lemma EncodeTwo(b: seq<Byte>)
    requires |b| == 2
    ensures |EncodeUnpadded(b)| == 3 && UrlSafe(EncodeUnpadded(b)) && Bytes(EncodeUnpadded(b), 0) == b
  {
    TwoChars(b);
    TwoBytes(b[0], b[1]);
    var s := EncodeUnpadded(b);
    assert Bytes(s, 0) == [b[0], b[1]];
    assert b == [b[0], b[1]];
  }

  lemma TwoChars(b: seq<Byte>)
    requires |b| == 2
    ensures
      var s := EncodeUnpadded(b);
      && |s| == 3 && UrlSafe(s)
      && Val(s[0]) == b[0] / 4 && Val(s[1]) == b[0] % 4 * 16 + b[1] / 16 && Val(s[2]) == b[1] % 16 * 4
  {
  }

  lemma TwoBytes(x: Byte, y: Byte)
    ensures x % 4 * 16 + y / 16 < 64 && y % 16 * 4 < 64
    ensures FirstByte(x / 4, x % 4 * 16 + y / 16) == x && SecondByte(x % 4 * 16 + y / 16, y % 16 * 4) == y
  {
    FirstTwoBits(x, y);
  }

  lemma EncodeMore(b: seq<Byte>)
    requires |b| >= 3
    ensures
      var s := EncodeUnpadded(b);
      && |s| == 4 + |EncodeUnpadded(b[3..])| && s[4..] == EncodeUnpadded(b[3..])
      && ValueOf(s[0]) == Some(b[0] / 4) && ValueOf(s[1]) == Some(b[0] % 4 * 16 + b[1] / 16)
      && ValueOf(s[2]) == Some(b[1] % 16 * 4 + b[2] / 64) && ValueOf(s[3]) == Some(b[2] % 64)
      && (UrlSafe(s[4..]) ==> UrlSafe(s))
  {
    var s := EncodeUnpadded(b);
    assert s[4..] == EncodeUnpadded(b[3..]);
    SafeFrom(s);
  }

  lemma SafeFrom(s: string)
    requires |s| >= 4 && forall i | 0 <= i < 4 :: ValueOf(s[i]).Some?
    ensures UrlSafe(s[4..]) ==> UrlSafe(s)
  {
    assert forall i | 4 <= i < |s| :: s[i] == s[4..][i - 4];
  }

  /** Every 32-byte digest's unpadded encoding passes the check and decodes back to it. */
  lemma DigestRoundTrip(digest: seq<Byte>)
    requires |digest| == 32
    ensures Accepted(EncodeUnpadded(digest)) && UrlsafeB64Decode(EncodeUnpadded(digest) + "=") == Some(digest)
  {
    EncodeThenBytes(digest, 10);
    DecodeIsBytes(EncodeUnpadded(digest), 10);
  }

  /** Equal but for the two bits of the last character that the decoder drops. */
  predicate SameButSlack(c: string, d: string)
    requires UrlSafe(c) && UrlSafe(d) && |c| == |d| > 0
  {
    var n := |c| - 1;
    c[..n] == d[..n] && Val(c[n]) / 4 == Val(d[n]) / 4
  }

  lemma ValIsInjective(c: char, d: char)
    requires ValueOf(c).Some? && ValueOf(c) == ValueOf(d)
    ensures c == d
  {
  }

  /** The characters of a group can be read off its bytes. */
  lemma GroupParts(a: Sextet, b: Sextet, c: Sextet, d: Sextet)
    ensures
      var x, y, z := FirstByte(a, b), SecondByte(b, c), ThirdByte(c, d);
      a == x / 4 && b == x % 4 * 16 + y / 16 && c == y % 16 * 4 + z / 64 && d == z % 64
  {
  }

  lemma GroupIsInjective(a: Sextet, b: Sextet, c: Sextet, d: Sextet, a': Sextet, b': Sextet, c': Sextet, d': Sextet)
    ensures Group(a, b, c, d) == Group(a', b', c', d') <==> a == a' && b == b' && c == c' && d == d'
  {
    GroupParts(a, b, c, d);
    GroupParts(a', b', c', d');
    var g, h := Group(a, b, c, d), Group(a', b', c', d');
    assert g == h <==> g[0] == h[0] && g[1] == h[1] && g[2] == h[2];
  }

  lemma LastIsInjective(a: Sextet, b: Sextet, c: Sextet, a': Sextet, b': Sextet, c': Sextet)
    ensures FirstByte(a, b) == FirstByte(a', b') && SecondByte(b, c) == SecondByte(b', c') <==>
            a == a' && b == b' && c / 4 == c' / 4
  {
    if FirstByte(a, b) == FirstByte(a', b') {
      assert a == FirstByte(a, b) / 4 && a' == FirstByte(a', b') / 4;
      if SecondByte(b, c) == SecondByte(b', c') {
        assert b % 16 == SecondByte(b, c) / 16 && b' % 16 == SecondByte(b', c') / 16;
      }
    }
  }

  lemma LastAlike(c: string, d: string)
    requires UrlSafe(c) && UrlSafe(d) && |c| == |d| == 3
    ensures Bytes(c, 0) == Bytes(d, 0) <==> SameButSlack(c, d)
  {
    assert c[..2] == [c[0], c[1]] && d[..2] == [d[0], d[1]];
    LastIsInjective(Val(c[0]), Val(c[1]), Val(c[2]), Val(d[0]), Val(d[1]), Val(d[2]));
    assert Bytes(c, 0) == Bytes(d, 0) <==> Bytes(c, 0)[0] == Bytes(d, 0)[0] && Bytes(c, 0)[1] == Bytes(d, 0)[1];
    if Val(c[0]) == Val(d[0]) && Val(c[1]) == Val(d[1]) {
      ValIsInjective(c[0], d[0]);
      ValIsInjective(c[1], d[1]);
    }
  }

  /** Strings differ in their first group or after it. */
  lemma SlackSplit(c: string, d: string)
    requires UrlSafe(c) && UrlSafe(d) && |c| == |d| > 4
    ensures SameButSlack(c, d) <==> c[..4] == d[..4] && SameButSlack(c[4..], d[4..])
  {
    var n := |c| - 1;
    assert c[4..][..n - 4] == c[4..n] && d[4..][..n - 4] == d[4..n];
    assert c[..n] == c[..4] + c[4..n] && d[..n] == d[..4] + d[4..n];
    assert c[..n][..4] == c[..4] && d[..n][..4] == d[..4] && c[..n][4..] == c[4..n] && d[..n][4..] == d[4..n];
  }

  lemma CharsAlike(c: string, d: string)
    requires |c| == |d| == 4 && UrlSafe(c) && UrlSafe(d)
    ensures c == d <==>
            Val(c[0]) == Val(d[0]) && Val(c[1]) == Val(d[1]) && Val(c[2]) == Val(d[2]) && Val(c[3]) == Val(d[3])
  {
    if Val(c[0]) == Val(d[0]) && Val(c[1]) == Val(d[1]) && Val(c[2]) == Val(d[2]) && Val(c[3]) == Val(d[3]) {
      ValIsInjective(c[0], d[0]);
      ValIsInjective(c[1], d[1]);
      ValIsInjective(c[2], d[2]);
      ValIsInjective(c[3], d[3]);
    }
  }

  lemma ConcatAlike(g: seq<nat>, x: seq<nat>, h: seq<nat>, y: seq<nat>)
    requires |g| == |h|
    ensures g + x == h + y <==> g == h && x == y
  {
    assert (g + x)[..|g|] == g && (g + x)[|g|..] == x && (h + y)[..|h|] == h && (h + y)[|h|..] == y;
  }

  lemma BytesSplit(c: string, d: string, n: nat)
    requires UrlSafe(c) && UrlSafe(d) && |c| == |d| == 4 * n + 3 && n > 0
    ensures UrlSafe(c[4..]) && UrlSafe(d[4..])
    ensures Bytes(c, n) == Bytes(d, n) <==> c[..4] == d[..4] && Bytes(c[4..], n - 1) == Bytes(d[4..], n - 1)
  {
    GroupIsInjective(Val(c[0]), Val(c[1]), Val(c[2]), Val(c[3]), Val(d[0]), Val(d[1]), Val(d[2]), Val(d[3]));
    CharsAlike(c[..4], d[..4]);
    ConcatAlike(Group(Val(c[0]), Val(c[1]), Val(c[2]), Val(c[3])), Bytes(c[4..], n - 1),
                Group(Val(d[0]), Val(d[1]), Val(d[2]), Val(d[3])), Bytes(d[4..], n - 1));
  }

  lemma {:induction false} BytesAlike(c: string, d: string, n: nat)
    requires UrlSafe(c) && UrlSafe(d) && |c| == |d| == 4 * n + 3
    ensures Bytes(c, n) == Bytes(d, n) <==> SameButSlack(c, d)
    decreases n
  {
    if n > 0 {
      SafeTail(c, 4);
      SafeTail(d, 4);
      BytesAlike(c[4..], d[4..], n - 1);
      AlikeStep(c, d, n);
    } else {
      LastAlike(c, d);
    }
  }

  lemma SafeTail(c: string, k: nat)
    requires UrlSafe(c) && k <= |c|
    ensures UrlSafe(c[k..])
  {
  }

  lemma AlikeStep(c: string, d: string, n: nat)
    requires UrlSafe(c) && UrlSafe(d) && |c| == |d| == 4 * n + 3 && n > 0
    requires UrlSafe(c[4..]) && UrlSafe(d[4..])
    requires Bytes(c[4..], n - 1) == Bytes(d[4..], n - 1) <==> SameButSlack(c[4..], d[4..])
    ensures Bytes(c, n) == Bytes(d, n) <==> SameButSlack(c, d)
  {
    BytesSplit(c, d, n);
    SlackSplit(c, d);
  }

  /**
    Two accepted challenges decode alike exactly when they differ at most in the
    low two bits of the last character.
   */
  lemma DecodeAlikeIffSlack(c: string, d: string)
    requires Accepted(c) && Accepted(d)
    ensures UrlsafeB64Decode(c + "=") == UrlsafeB64Decode(d + "=") <==> SameButSlack(c, d)
  {
    DecodeIsBytes(c, 10);
    DecodeIsBytes(d, 10);
    BytesAlike(c, d, 10);
  }
}
