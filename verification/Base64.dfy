/**
 base64.RawStdEncoding: the unpadded standard alphabet of section 4 of RFC 4648.
 As in Go, decoding skips line breaks and ignores the unused low bits of a
 final partial group (section 3.5 of RFC 4648 calls such input non-canonical).
 */
module Base64 {
  import opened Options

  type Byte = x: int | 0 <= x < 256
  type Sextet = x: int | 0 <= x < 64

  function Symbol(x: Sextet): char {
    if x < 26 then ('A' as int + x) as char
    else if x < 52 then ('a' as int + (x - 26)) as char
    else if x < 62 then ('0' as int + (x - 52)) as char
    else if x == 62 then '+' else '/'
  }

  function Index(c: char): Option<Sextet> {
    if 'A' <= c <= 'Z' then Some(c as int - 'A' as int)
    else if 'a' <= c <= 'z' then Some(c as int - 'a' as int + 26)
    else if '0' <= c <= '9' then Some(c as int - '0' as int + 52)
    else if c == '+' then Some(62) else if c == '/' then Some(63) else None
  }

  lemma SymbolsInvert(x: Sextet)
    ensures Index(Symbol(x)) == Some(x) && !IsBreak(Symbol(x)) && Symbol(x) !in {'=', '$', ','}
  {
  }

  /** Table 1 of RFC 4648, in US-ASCII. */
  lemma SymbolsAreTheAlphabet(x: Sextet)
    ensures x < 26 ==> Symbol(x) as int == 0x41 + x
    ensures 26 <= x < 52 ==> Symbol(x) as int == 0x61 + x - 26
    ensures 52 <= x < 62 ==> Symbol(x) as int == 0x30 + x - 52
    ensures Symbol(62) as int == 0x2B && Symbol(63) as int == 0x2F
  {
  }

  function Encode(b: seq<Byte>): string {
    if |b| == 0 then ""
    else if |b| == 1 then [Symbol(b[0] / 4), Symbol(b[0] % 4 * 16)]
    else if |b| == 2 then [Symbol(b[0] / 4), Symbol(b[0] % 4 * 16 + b[1] / 16), Symbol(b[1] % 16 * 4)]
    else
      [Symbol(b[0] / 4), Symbol(b[0] % 4 * 16 + b[1] / 16), Symbol(b[1] % 16 * 4 + b[2] / 64), Symbol(b[2] % 64)]
      + Encode(b[3..])
  }

  predicate IsBreak(c: char) { c == '\r' || c == '\n' }

  function WithoutBreaks(s: string): string {
    if s == "" then "" else (if IsBreak(s[0]) then "" else [s[0]]) + WithoutBreaks(s[1..])
  }

  /** The sextets of a string of symbols. */
  function Sextets(s: string): Option<seq<Sextet>> {
    if s == "" then Some([])
    else
      match (Index(s[0]), Sextets(s[1..]))
      case (Some(x), Some(rest)) => Some([x] + rest)
      case _ => None
  }

  function First(x: Sextet, y: Sextet): Byte { x * 4 + y / 16 }

  function Second(x: Sextet, y: Sextet): Byte { x % 16 * 16 + y / 4 }

  function Third(x: Sextet, y: Sextet): Byte { x % 4 * 64 + y }

  /** One sextet cannot hold a byte. */
  function Pack(x: seq<Sextet>): Option<seq<Byte>> {
    if |x| == 0 then Some([])
    else if |x| == 1 then None
    else if |x| == 2 then Some([First(x[0], x[1])])
    else if |x| == 3 then Some([First(x[0], x[1]), Second(x[1], x[2])])
    else
      match Pack(x[4..])
      case Some(rest) => Some([First(x[0], x[1]), Second(x[1], x[2]), Third(x[2], x[3])] + rest)
      case None => None
  }

  function Decode(s: string): Option<seq<Byte>> {
    match Sextets(WithoutBreaks(s))
    case Some(x) => Pack(x)
    case None => None
  }

  function EncodedLen(n: nat): nat { (n * 8 + 5) / 6 }

  function DecodedLen(n: nat): nat { n * 6 / 8 }

  // ---------------------------------------------------------------- round trip

  /** The sextets that Encode prints. */
  function Unpack(b: seq<Byte>): seq<Sextet> {
    if |b| == 0 then []
    else if |b| == 1 then [b[0] / 4, b[0] % 4 * 16]
    else if |b| == 2 then [b[0] / 4, b[0] % 4 * 16 + b[1] / 16, b[1] % 16 * 4]
    else [b[0] / 4, b[0] % 4 * 16 + b[1] / 16, b[1] % 16 * 4 + b[2] / 64, b[2] % 64] + Unpack(b[3..])
  }

  function Symbols(x: seq<Sextet>): string {
    if x == [] then "" else [Symbol(x[0])] + Symbols(x[1..])
  }

  lemma {:induction false} SymbolsOfPlus(x: seq<Sextet>, y: seq<Sextet>)
    ensures Symbols(x + y) == Symbols(x) + Symbols(y)
  {
    if x == [] {
      assert x + y == y;
    } else {
      assert (x + y)[1..] == x[1..] + y;
      SymbolsOfPlus(x[1..], y);
    }
  }

  lemma {:induction false} EncodePrintsUnpacked(b: seq<Byte>)
    ensures Encode(b) == Symbols(Unpack(b))
  {
    if |b| >= 3 {
      EncodePrintsUnpacked(b[3..]);
      var x: seq<Sextet> := [b[0] / 4, b[0] % 4 * 16 + b[1] / 16, b[1] % 16 * 4 + b[2] / 64, b[2] % 64];
      SymbolsOfPlus(x, Unpack(b[3..]));
      FourSymbols(x);
    } else if |b| == 2 {
      ThreeSymbols([b[0] / 4, b[0] % 4 * 16 + b[1] / 16, b[1] % 16 * 4]);
    } else if |b| == 1 {
      TwoSymbols([b[0] / 4, b[0] % 4 * 16]);
    }
  }

  lemma TwoSymbols(x: seq<Sextet>)
    requires |x| == 2
    ensures Symbols(x) == [Symbol(x[0]), Symbol(x[1])]
  {
    var y := x[1..];
    assert y[1..] == [] && Symbols(y) == [Symbol(y[0])] + Symbols(y[1..]);
  }

  lemma ThreeSymbols(x: seq<Sextet>)
    requires |x| == 3
    ensures Symbols(x) == [Symbol(x[0]), Symbol(x[1]), Symbol(x[2])]
  {
    assert x[1..] == [x[1], x[2]];
    TwoSymbols(x[1..]);
  }

  lemma FourSymbols(x: seq<Sextet>)
    requires |x| == 4
    ensures Symbols(x) == [Symbol(x[0]), Symbol(x[1]), Symbol(x[2]), Symbol(x[3])]
  {
    assert x[1..] == [x[1], x[2], x[3]];
    ThreeSymbols(x[1..]);
  }

  lemma {:induction false} SextetsOfSymbols(x: seq<Sextet>)
    ensures WithoutBreaks(Symbols(x)) == Symbols(x) && Sextets(Symbols(x)) == Some(x)
    ensures |Symbols(x)| == |x| && forall c <- Symbols(x) :: c !in {'=', '$', ','}
  {
    if x != [] {
      SextetsOfSymbols(x[1..]);
      SymbolsInvert(x[0]);
      assert Symbols(x)[1..] == Symbols(x[1..]);
      assert [x[0]] + x[1..] == x;
    }
  }

  /** Three bytes come back from the four sextets they were cut into. */
  lemma BytesBack(x: Byte, y: Byte, z: Byte)
    ensures First(x / 4, x % 4 * 16 + y / 16) == x
    ensures Second(x % 4 * 16 + y / 16, y % 16 * 4 + z / 64) == y
    ensures Third(y % 16 * 4 + z / 64, z % 64) == z
  {
  }

  lemma {:induction false} PackOfUnpack(b: seq<Byte>)
    ensures Pack(Unpack(b)) == Some(b) && |Unpack(b)| == EncodedLen(|b|)
  {
    if |b| >= 3 {
      PackOfUnpack(b[3..]);
      BytesBack(b[0], b[1], b[2]);
      assert Unpack(b)[4..] == Unpack(b[3..]);
      assert b == [b[0], b[1], b[2]] + b[3..];
    } else if |b| == 2 {
      BytesBack(b[0], b[1], 0);
      assert b == [b[0], b[1]];
    } else if |b| == 1 {
      assert b == [b[0]];
    }
  }

  /** The number that sextets, or bytes, spell most significant first. */
  function SextetBits(x: int, y: int, z: int, u: int): int { 262144 * x + 4096 * y + 64 * z + u }

  function ByteBits(x: int, y: int, z: int): int { 65536 * x + 256 * y + z }

  lemma GroupBits(x: Byte, y: Byte, z: Byte)
    ensures SextetBits(x / 4, x % 4 * 16 + y / 16, y % 16 * 4 + z / 64, z % 64) == ByteBits(x, y, z)
  {
  }

  /** Section 4 of RFC 4648: each group of 24 bits is four sextets, most significant first. */
  lemma {:induction false} GroupsKeepTheirBits(b: seq<Byte>, k: nat)
    requires 3 * k + 3 <= |b|
    ensures |Unpack(b)| >= 4 * k + 4
    ensures var x := Unpack(b);
            SextetBits(x[4 * k], x[4 * k + 1], x[4 * k + 2], x[4 * k + 3]) == ByteBits(b[3 * k], b[3 * k + 1], b[3 * k + 2])
    decreases k
  {
    if k == 0 {
      GroupBits(b[0], b[1], b[2]);
    } else {
      GroupsKeepTheirBits(b[3..], k - 1);
      assert Unpack(b)[4..] == Unpack(b[3..]);
      var x, y := Unpack(b), Unpack(b[3..]);
      assert x[4 * k] == y[4 * k - 4] && x[4 * k + 1] == y[4 * k - 3] && x[4 * k + 2] == y[4 * k - 2] && x[4 * k + 3] == y[4 * k - 1];
    }
  }

  lemma PartialBits(x: Byte, y: Byte)
    ensures SextetBits(0, 0, x / 4, x % 4 * 16) == 16 * ByteBits(0, 0, x)
    ensures SextetBits(0, x / 4, x % 4 * 16 + y / 16, y % 16 * 4) == 4 * ByteBits(0, x, y)
  {
  }

  /** After `k` whole groups, a final one of 8 or 16 bits is filled up with zero bits on the right. */
  lemma {:induction false} LastGroupIsFilled(b: seq<Byte>, k: nat)
    requires |b| == 3 * k + 1 || |b| == 3 * k + 2
    ensures |Unpack(b)| == |b| + k + 1
    ensures |b| == 3 * k + 1 ==> SextetBits(0, 0, Unpack(b)[4 * k], Unpack(b)[4 * k + 1]) == 16 * ByteBits(0, 0, b[3 * k])
    ensures |b| == 3 * k + 2 ==>
              SextetBits(0, Unpack(b)[4 * k], Unpack(b)[4 * k + 1], Unpack(b)[4 * k + 2]) == 4 * ByteBits(0, b[3 * k], b[3 * k + 1])
    decreases k
  {
    if k == 0 {
      PartialBits(b[0], b[|b| - 1]);
    } else {
      LastGroupIsFilled(b[3..], k - 1);
      assert Unpack(b)[4..] == Unpack(b[3..]);
      var x, y := Unpack(b), Unpack(b[3..]);
      assert x[4 * k] == y[4 * k - 4] && x[4 * k + 1] == y[4 * k - 3] && (|b| == 3 * k + 2 ==> x[4 * k + 2] == y[4 * k - 2]);
    }
  }

  /** Some of the test vectors of section 10 of RFC 4648: f, fo, foo. */
  lemma TestVectors()
    ensures Encode([0x66]) == "Zg" && Encode([0x66, 0x6F]) == "Zm8" && Encode([0x66, 0x6F, 0x6F]) == "Zm9v"
  {
    assert Encode([0x66, 0x6F, 0x6F]) == [Symbol(25), Symbol(38), Symbol(61), Symbol(47)] + Encode([]);
  }

  /** Decoding undoes encoding; the lengths agree with what the library computes beforehand. */
  lemma RoundTrip(b: seq<Byte>)
    ensures Decode(Encode(b)) == Some(b)
    ensures |Encode(b)| == EncodedLen(|b|) && DecodedLen(|Encode(b)|) == |b|
    ensures forall c <- Encode(b) :: c !in {'=', '$', ','}
  {
    EncodePrintsUnpacked(b);
    SextetsOfSymbols(Unpack(b));
    PackOfUnpack(b);
  }

  /** Decoding alone is not injective, so a strict reader has to compare with the canonical form. */
  lemma LowBitsAreIgnored(x: Sextet, y: Sextet, z: Sextet)
    requires y / 16 == z / 16
    ensures Decode([Symbol(x), Symbol(y)]) == Decode([Symbol(x), Symbol(z)]) == Some([First(x, y)])
  {
    SextetsOfSymbols([x, y]);
    SextetsOfSymbols([x, z]);
    TwoSymbols([x, y]);
    TwoSymbols([x, z]);
  }
}
