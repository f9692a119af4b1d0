/**
 Unpadded base64url (section 5 of RFC 4648) and hexadecimal, as the ledger writes and reads keys
 and signatures (ledger/memory.py, ledger/postgres.py, service/models.py).
 */
module Base64 {
  import opened Canon

  type Sextet = n: nat | n < 64

  function EncodeSextet(n: Sextet): char {
    if n < 26 then 'A' + n as char
    else if n < 52 then 'a' + (n - 26) as char
    else if n < 62 then '0' + (n - 52) as char
    else if n == 62 then '-'
    else '_'
  }

  /** Both alphabets are read; anything else is not a sextet. */
  function DecodeSextet(c: char): Option<Sextet> {
    if 'A' <= c <= 'Z' then Some((c - 'A') as int)
    else if 'a' <= c <= 'z' then Some((c - 'a') as int + 26)
    else if '0' <= c <= '9' then Some((c - '0') as int + 52)
    else if c == '-' || c == '+' then Some(62)
    else if c == '_' || c == '/' then Some(63)
    else None
  }

  function Quad(a: Byte, b: Byte, c: Byte): string {
    [EncodeSextet(a / 4), EncodeSextet(a % 4 * 16 + b / 16), EncodeSextet(b % 16 * 4 + c / 64), EncodeSextet(c % 64)]
  }

  /** The standard encoder: groups of three bytes, the last one padded. */
  function Encode(data: Bytes): string {
    if data == [] then ""
    else if |data| == 1 then Quad(data[0], 0, 0)[..2] + "=="
    else if |data| == 2 then Quad(data[0], data[1], 0)[..3] + "="
    else Quad(data[0], data[1], data[2]) + Encode(data[3..])
  }

  function StripPadding(s: string): string {
    if s != "" && s[|s| - 1] == '=' then StripPadding(s[..|s| - 1]) else s
  }

  function Padding(n: int): string {
    seq((-n) % 4, _ => '=')
  }

  function EncodeUnpadded(data: Bytes): string {
    StripPadding(Encode(data))
  }

  /** A partly read group: how many sextets, and the bits of the last one not yet output. */
  predicate Pending(quad: nat, left: nat) {
    match quad
    case 0 => true
    case 1 => left < 64
    case 2 => left < 16
    case 3 => left < 4
    case _ => false
  }

  function Emit(b: Byte, rest: Option<Bytes>): Option<Bytes> {
    match rest
    case None => None
    case Some(bytes) => Some([b] + bytes)
  }

  /** The lenient decoder: characters outside the alphabet are skipped, completed padding ends the
      input, and an incomplete last group is an error. */
  function Scan(s: string, quad: nat, left: nat, pads: nat): Option<Bytes>
    requires Pending(quad, left)
  {
    if s == "" then if quad == 0 then Some([]) else None
    else if s[0] == '=' then
      if quad >= 2 && quad + pads + 1 >= 4 then Some([])
      else Scan(s[1..], quad, left, if quad >= 2 then pads + 1 else pads)
    else
      match DecodeSextet(s[0])
      case None => Scan(s[1..], quad, left, pads)
      case Some(v) =>
        if quad == 0 then Scan(s[1..], 1, v, 0)
        else if quad == 1 then Emit(left * 4 + v / 16, Scan(s[1..], 2, v % 16, 0))
        else if quad == 2 then Emit(left * 16 + v / 4, Scan(s[1..], 3, v % 4, 0))
        else Emit(left * 64 + v, Scan(s[1..], 0, 0, 0))
  }

  function Decode(s: string): Option<Bytes> {
    if exists c :: c in s && c as int >= 128 then None else Scan(s, 0, 0, 0)
  }

  /** Decoding as every reader of the repository does it: restore the padding, then decode. */
  function DecodeUnpadded(s: string): Option<Bytes> {
    Decode(s + Padding(|s|))
  }

  // --- the round trip ---

  lemma SextetRoundTrip(n: Sextet)
    ensures DecodeSextet(EncodeSextet(n)) == Some(n)
    ensures EncodeSextet(n) != '=' && EncodeSextet(n) as int < 128
  {
  }

  lemma ScanStep(s: string, n: Sextet, quad: nat, left: nat)
    requires s != "" && s[0] == EncodeSextet(n) && Pending(quad, left)
    ensures quad == 0 ==> Scan(s, quad, left, 0) == Scan(s[1..], 1, n, 0)
    ensures quad == 1 ==> Scan(s, quad, left, 0) == Emit(left * 4 + n / 16, Scan(s[1..], 2, n % 16, 0))
    ensures quad == 2 ==> Scan(s, quad, left, 0) == Emit(left * 16 + n / 4, Scan(s[1..], 3, n % 4, 0))
    ensures quad == 3 ==> Scan(s, quad, left, 0) == Emit(left * 64 + n, Scan(s[1..], 0, 0, 0))
  {
    SextetRoundTrip(n);
  }

  lemma Nibbles(a: Byte, b: Byte)
    ensures var m := a % 4 * 16 + b / 16; m < 64 && a / 4 * 4 + m / 16 == a && m % 16 == b / 16
  {
  }

  /** Two sextets give back the byte they came from, and leave the low bits of the second. */
  lemma ScanTwo(a: Byte, b: Byte, rest: string)
    ensures Scan(Quad(a, b, 0)[..2] + rest, 0, 0, 0) == Emit(a, Scan(rest, 2, b / 16, 0))
  {
    var m := a % 4 * 16 + b / 16;
    var s := Quad(a, b, 0)[..2] + rest;
    ScanStep(s, a / 4, 0, 0);
    assert s[1..] == [EncodeSextet(m)] + rest;
    ScanStep(s[1..], m, 1, a / 4);
    assert s[1..][1..] == rest;
    Nibbles(a, b);
  }

  lemma ScanThree(a: Byte, b: Byte, c: Byte, rest: string)
    ensures Scan(Quad(a, b, c)[..3] + rest, 0, 0, 0) == Emit(a, Emit(b, Scan(rest, 3, c / 64, 0)))
  {
    var m := b % 16 * 4 + c / 64;
    var tail := [EncodeSextet(m)] + rest;
    assert Quad(a, b, c)[..3] + rest == Quad(a, b, 0)[..2] + tail;
    ScanTwo(a, b, tail);
    ScanStep(tail, m, 2, b / 16);
    assert tail[1..] == rest;
    assert b / 16 * 16 + m / 4 == b && m % 4 == c / 64;
  }

  lemma ScanFour(a: Byte, b: Byte, c: Byte, rest: string)
    ensures Scan(Quad(a, b, c) + rest, 0, 0, 0) == Emit(a, Emit(b, Emit(c, Scan(rest, 0, 0, 0))))
  {
    var tail := [EncodeSextet(c % 64)] + rest;
    assert Quad(a, b, c) + rest == Quad(a, b, c)[..3] + tail;
    ScanThree(a, b, c, tail);
    ScanStep(tail, c % 64, 3, c / 64);
    assert tail[1..] == rest;
    assert c / 64 * 64 + c % 64 == c;
  }

  lemma NothingLeft()
    ensures Scan("", 0, 0, 0) == Some([])
  {
  }

  lemma LastByte(a: Byte)
    ensures Scan(Encode([a]), 0, 0, 0) == Some([a])
  {
    ScanTwo(a, 0, "==");
    assert "=="[1..] == "=";
    assert Scan("==", 2, 0, 0) == Scan("=", 2, 0, 1) == Some([]);
    assert [a] + [] == [a];
  }

  lemma LastTwoBytes(a: Byte, b: Byte)
    ensures Scan(Encode([a, b]), 0, 0, 0) == Some([a, b])
  {
    ScanThree(a, b, 0, "=");
    assert [a] + ([b] + []) == [a, b];
  }

  lemma {:induction false} PaddedRoundTrip(data: Bytes)
    ensures Scan(Encode(data), 0, 0, 0) == Some(data)
  {
    hide Scan, Quad, DecodeSextet;
    if data == [] {
      NothingLeft();
    } else if |data| == 1 {
      LastByte(data[0]);
      assert data == [data[0]];
    } else if |data| == 2 {
      LastTwoBytes(data[0], data[1]);
      assert data == [data[0], data[1]];
    } else {
      ScanFour(data[0], data[1], data[2], Encode(data[3..]));
      PaddedRoundTrip(data[3..]);
      assert data == [data[0]] + ([data[1]] + ([data[2]] + data[3..]));
      assert Encode(data) == Quad(data[0], data[1], data[2]) + Encode(data[3..]);
    }
  }

  lemma QuadIsPlain(a: Byte, b: Byte, c: Byte, i: nat)
    requires i < 4
    ensures Quad(a, b, c)[i] != '=' && Quad(a, b, c)[i] as int < 128
  {
    SextetRoundTrip(a / 4);
    SextetRoundTrip(a % 4 * 16 + b / 16);
    SextetRoundTrip(b % 16 * 4 + c / 64);
    SextetRoundTrip(c % 64);
  }

  predicate IsPlain(code: string) {
    forall i | 0 <= i < |code| :: code[i] != '=' && code[i] as int < 128
  }

  lemma QuadPrefixIsPlain(a: Byte, b: Byte, c: Byte, n: nat)
    requires n <= 4
    ensures IsPlain(Quad(a, b, c)[..n]) && |Quad(a, b, c)[..n]| == n
  {
    forall i | 0 <= i < n ensures Quad(a, b, c)[..n][i] != '=' && Quad(a, b, c)[..n][i] as int < 128 {
      QuadIsPlain(a, b, c, i);
    }
  }

  lemma PaddingPeriod(n: int)
    ensures Padding(n + 4) == Padding(n)
    ensures Padding(2) == "==" && Padding(3) == "=" && Padding(0) == ""
  {
  }

  /** The code is sextets alone, followed by exactly the padding its length calls for. */
  lemma {:induction false} EncodeShape(data: Bytes) returns (code: string)
    ensures Encode(data) == code + Padding(|code|)
    ensures IsPlain(code) && |code| == (4 * |data| + 2) / 3
    decreases data, 1
  {
    PaddingPeriod(0);
    if data == [] {
      code := "";
    } else if |data| == 1 {
      code := Quad(data[0], 0, 0)[..2];
      QuadPrefixIsPlain(data[0], 0, 0, 2);
    } else if |data| == 2 {
      code := Quad(data[0], data[1], 0)[..3];
      QuadPrefixIsPlain(data[0], data[1], 0, 3);
    } else {
      code := LongShape(data);
    }
  }

  lemma {:induction false} LongShape(data: Bytes) returns (code: string)
    requires |data| >= 3
    ensures Encode(data) == code + Padding(|code|)
    ensures IsPlain(code) && |code| == (4 * |data| + 2) / 3
    decreases data, 0
  {
    var rest := EncodeShape(data[3..]);
    var q := Quad(data[0], data[1], data[2]);
    QuadPrefixIsPlain(data[0], data[1], data[2], 4);
    assert q[..4] == q;
    code := q + rest;
    PaddingPeriod(|rest|);
    assert q + (rest + Padding(|rest|)) == code + Padding(|code|);
  }

  lemma {:induction false} StripStops(code: string, pads: nat)
    requires code != "" ==> code[|code| - 1] != '='
    ensures StripPadding(code + seq(pads, _ => '=')) == code
  {
    var s := code + seq(pads, _ => '=');
    if pads == 0 {
      assert s == code;
    } else {
      assert s[..|s| - 1] == code + seq(pads - 1, _ => '=');
      StripStops(code, pads - 1);
    }
  }

  lemma UnpaddedShape(data: Bytes)
    ensures EncodeUnpadded(data) + Padding(|EncodeUnpadded(data)|) == Encode(data)
    ensures |EncodeUnpadded(data)| == (4 * |data| + 2) / 3
    ensures forall c :: c in Encode(data) ==> c as int < 128
  {
    var code := EncodeShape(data);
    StripStops(code, |Padding(|code|)|);
    assert Padding(|code|) == seq(|Padding(|code|)|, _ => '=');
  }

  /** For every byte string: encode, strip the padding, restore it by length, decode. */
  lemma UnpaddedRoundTrip(data: Bytes)
    ensures DecodeUnpadded(EncodeUnpadded(data)) == Some(data)
  {
    UnpaddedShape(data);
    PaddedRoundTrip(data);
  }

  lemma EncodeInjective(a: Bytes, b: Bytes)
    requires Encode(a) == Encode(b)
    ensures a == b
  {
    PaddedRoundTrip(a);
    PaddedRoundTrip(b);
  }

  // --- hexadecimal ---

  type Nibble = n: nat | n < 16

  function HexDigit(n: Nibble): char {
    if n < 10 then '0' + n as char else 'a' + (n - 10) as char
  }

  function HexValue(c: char): Option<Nibble> {
    if '0' <= c <= '9' then Some((c - '0') as int)
    else if 'a' <= c <= 'f' then Some((c - 'a') as int + 10)
    else if 'A' <= c <= 'F' then Some((c - 'A') as int + 10)
    else None
  }

  function ToHex(data: Bytes): string {
    if data == [] then "" else [HexDigit(data[0] / 16), HexDigit(data[0] % 16)] + ToHex(data[1..])
  }

  predicate IsSpace(c: char) {
    c == ' ' || '\t' <= c <= '\r'
  }

  /** Pairs of hexadecimal digits, with white space allowed between the pairs. */
  function FromHex(s: string): Option<Bytes> {
    if s == "" then Some([])
    else if IsSpace(s[0]) then FromHex(s[1..])
    else if |s| == 1 then None
    else
      match (HexValue(s[0]), HexValue(s[1]))
      case (Some(high), Some(low)) => Emit((high as int) * 16 + low, FromHex(s[2..]))
      case _ => None
  }

  lemma {:induction false} HexRoundTrip(data: Bytes)
    ensures |ToHex(data)| == 2 * |data|
    ensures FromHex(ToHex(data)) == Some(data)
  {
    if data != [] {
      HexRoundTrip(data[1..]);
      var s := ToHex(data);
      assert s[2..] == ToHex(data[1..]);
      assert HexValue(s[0]) == Some(data[0] / 16) && HexValue(s[1]) == Some(data[0] % 16);
      assert data == [data[0]] + data[1..];
    }
  }

  lemma {:induction false} HexOfBytes(data: Bytes)
    ensures |ToHex(data)| == 2 * |data| && forall c | c in ToHex(data) :: IsHexDigit(c)
  {
    if data != [] {
      HexOfBytes(data[1..]);
    }
  }

  lemma {:induction false} BytesOfHex(s: string) returns (data: Bytes)
    requires |s| % 2 == 0 && forall c | c in s :: IsHexDigit(c)
    ensures s == ToHex(data) && |s| == 2 * |data|
  {
    data := [];
    if s != [] {
      var rest := BytesOfHex(s[2..]);
      assert s[0] in s && s[1] in s;
      var high, low := HexValue(s[0]).value, HexValue(s[1]).value;
      var first: Byte := (high as int) * 16 + low;
      data := [first] + rest;
      assert data[0] / 16 == high && data[0] % 16 == low && data[1..] == rest;
      assert s == [s[0], s[1]] + s[2..];
    }
  }

  /** A string that is no digest passes for a hash exactly if it is how 32 bytes are written. */
  lemma HashIsHex(s: string)
    ensures IsHash(Plain(s)) <==> exists data: Bytes :: |data| == 32 && s == ToHex(data)
  {
    if IsHash(Plain(s)) {
      var data := BytesOfHex(s);
      assert |data| == 32 && s == ToHex(data);
    }
    if data: Bytes :| |data| == 32 && s == ToHex(data) {
      HexOfBytes(data);
    }
  }

  // --- keys and signatures ---

  function OfLength(data: Option<Bytes>, n: nat): Option<Bytes> {
    if data.Some? && |data.value| == n then data else None
  }

  function DecodePublicKey(value: string): Option<Bytes> {
    OfLength(if |value| == 64 then FromHex(value) else DecodeUnpadded(value), 32)
  }

  function DecodeSignature(value: string): Option<Bytes> {
    OfLength(DecodeUnpadded(value), 64)
  }

  /** Every 32-byte key survives either written form, and the two forms are never confused. */
  lemma KeyRoundTrip(key: Bytes, other: Bytes)
    requires |key| == 32 && |other| == 32
    ensures DecodePublicKey(ToHex(key)) == Some(key)
    ensures DecodePublicKey(EncodeUnpadded(key)) == Some(key)
    ensures ToHex(key) != EncodeUnpadded(other)
  {
    HexRoundTrip(key);
    UnpaddedShape(key);
    UnpaddedShape(other);
    UnpaddedRoundTrip(key);
  }

  lemma SignatureRoundTrip(signature: Bytes)
    requires |signature| == 64
    ensures DecodeSignature(EncodeUnpadded(signature)) == Some(signature)
  {
    UnpaddedRoundTrip(signature);
  }
}
