/** The client identity on its way: the proxy prints a digest in hexadecimal (rust_proxy/src/main.rs),
    the backend checks its spelling (server/client_identity.py) and files jobs under it. */
module Identity {
  import opened Basics
  import opened Wav
  import ProxyHeaders

  const DIGEST_BYTES := 32
  const HEX := "0123456789abcdef"

  /** The two digits of a byte, high half first. */
  function HexPair(b: Byte): (pair: string)
    ensures |pair| == 2
  {
    [HEX[b / 16], HEX[b % 16]]
  }

  function HexDigits(bytes: seq<Byte>): string {
    if bytes == [] then "" else HexDigits(bytes[..|bytes| - 1]) + HexPair(bytes[|bytes| - 1])
  }

  /** `hex_lower`. */
  method HexLower(bytes: seq<Byte>) returns (out: string)
    ensures out == HexDigits(bytes)
  {
    out := "";
    assert bytes[..0] == [];
    for i := 0 to |bytes|
      invariant out == HexDigits(bytes[..i])
    {
      out := out + [HEX[bytes[i] / 16]];
      out := out + [HEX[bytes[i] % 16]];
      HexAppend(bytes[..i], bytes[i]);
      assert bytes[..i] + [bytes[i]] == bytes[..i + 1];
    }
    assert bytes[..|bytes|] == bytes;
  }

  function DigitValue(c: char): nat {
    if '0' <= c <= '9' then (c - '0') as int
    else if 'a' <= c <= 'f' then (c - 'a') as int + 10
    else 0
  }

  /** The bytes a string of hexadecimal digit pairs spells. */
  function Unhex(s: string): seq<Byte> {
    if |s| < 2 then []
    else Unhex(s[..|s| - 2]) + [PairValue(s[|s| - 2..])]
  }

  function PairValue(pair: string): Byte
    requires |pair| == 2
  {
    var v := DigitValue(pair[0]) * 16 + DigitValue(pair[1]);
    if v < 256 then v else 0
  }

  predicate LowerHex(s: string) {
    forall i | 0 <= i < |s| :: '0' <= s[i] <= '9' || 'a' <= s[i] <= 'f'
  }

  /** `^[a-f0-9]{64}$`, matched against the whole value. */
  predicate WellFormed(identity: string) { |identity| == 64 && LowerHex(identity) }

  /** `require_client_identity`: exactly one header value, well formed; `None` stands for 403. */
  function Require(values: seq<string>): Option<string> {
    if |values| == 1 && WellFormed(values[0]) then Some(values[0]) else None
  }

  lemma DigitTrips(b: Byte)
    ensures PairValue(HexPair(b)) == b && LowerHex(HexPair(b))
  {
    DigitTrip(b / 16);
    DigitTrip(b % 16);
  }

  lemma DigitTrip(n: nat)
    requires n < 16
    ensures DigitValue(HEX[n]) == n
    ensures '0' <= HEX[n] <= '9' || 'a' <= HEX[n] <= 'f'
  {
    assert n < 10 ==> HEX[n] == '0' + n as char;
    assert n >= 10 ==> HEX[n] == 'a' + (n - 10) as char;
  }

  /** The digits are the usual ones, the high half of each byte first. */
  lemma DigitsAreUsual(bytes: seq<Byte>, i: nat)
    requires i < |bytes|
    ensures |HexDigits(bytes)| == 2 * |bytes|
    ensures HexDigits(bytes)[2 * i] == UsualDigit(bytes[i] / 16)
      && HexDigits(bytes)[2 * i + 1] == UsualDigit(bytes[i] % 16)
  {
    hide HexPair, HexDigits, UsualDigit;
    var n := |bytes| - 1;
    UnhexInvertsHex(bytes[..n]);
    PairIsUsual(bytes[n]);
    HexAppend(bytes[..n], bytes[n]);
    assert bytes[..n] + [bytes[n]] == bytes;
    if i < n {
      DigitsAreUsual(bytes[..n], i);
    }
  }

  function UsualDigit(n: int): char
    requires 0 <= n < 16
  {
    if n < 10 then (48 + n) as char else (87 + n) as char
  }

  lemma PairIsUsual(b: Byte)
    ensures HexPair(b) == [UsualDigit(b / 16), UsualDigit(b % 16)]
  {
    DigitTrip(b / 16);
    DigitTrip(b % 16);
  }

  /** Printing and reading back: nothing is lost, the length doubles, the digits are lower case. */
  lemma {:induction false} UnhexInvertsHex(bytes: seq<Byte>)
    ensures Unhex(HexDigits(bytes)) == bytes
    ensures |HexDigits(bytes)| == 2 * |bytes|
    ensures LowerHex(HexDigits(bytes))
  {
    hide PairValue, HexPair, LowerHex;
    LowerConcat("", "");
    if bytes != [] {
      var n := |bytes| - 1;
      UnhexInvertsHex(bytes[..n]);
      DigitTrips(bytes[n]);
      LowerConcat(HexDigits(bytes[..n]), HexPair(bytes[n]));
      UnhexAppend(HexDigits(bytes[..n]), HexPair(bytes[n]));
      assert bytes == bytes[..n] + [bytes[n]];
    }
  }

  lemma LowerConcat(a: string, b: string)
    ensures LowerHex("")
    ensures LowerHex(a) && LowerHex(b) ==> LowerHex(a + b)
  {
  }

  lemma UnhexAppend(s: string, pair: string)
    requires |pair| == 2
    ensures Unhex(s + pair) == Unhex(s) + [PairValue(pair)]
  {
    assert (s + pair)[..|s|] == s && (s + pair)[|s|..] == pair;
  }

  lemma HexAppend(bytes: seq<Byte>, b: Byte)
    ensures HexDigits(bytes + [b]) == HexDigits(bytes) + HexPair(b)
  {
    assert (bytes + [b])[..|bytes|] == bytes;
  }

  lemma DigitBack(c: char)
    requires '0' <= c <= '9' || 'a' <= c <= 'f'
    ensures DigitValue(c) < 16 && HEX[DigitValue(c)] == c
  {
    var n := DigitValue(c);
    assert n < 16;
    assert n < 10 ==> HEX[n] == '0' + n as char;
    assert n >= 10 ==> HEX[n] == 'a' + (n - 10) as char;
  }

  lemma LowerPair(pair: string)
    requires |pair| == 2 && LowerHex(pair)
    ensures forall c | c in pair :: '0' <= c <= '9' || 'a' <= c <= 'f'
    ensures pair[0] in pair && pair[1] in pair
  {
  }

  lemma PairBack(pair: string)
    requires |pair| == 2 && LowerHex(pair)
    ensures HexPair(PairValue(pair)) == pair
  {
    hide DigitValue, LowerHex;
    LowerPair(pair);
    DigitBack(pair[0]);
    DigitBack(pair[1]);
    Halves(DigitValue(pair[0]), DigitValue(pair[1]));
    assert pair == [pair[0], pair[1]];
  }

  lemma Halves(high: nat, low: nat)
    requires high < 16 && low < 16
    ensures high * 16 + low < 256 && (high * 16 + low) / 16 == high && (high * 16 + low) % 16 == low
  {
  }

  lemma {:induction false} HexInvertsUnhex(s: string)
    requires LowerHex(s) && |s| % 2 == 0
    ensures HexDigits(Unhex(s)) == s && 2 * |Unhex(s)| == |s|
    decreases |s|
  {
    hide PairValue, HexPair;
    if s != "" {
      var n := |s| - 2;
      HexInvertsUnhex(s[..n]);
      PairBack(s[n..]);
      HexAppend(Unhex(s[..n]), PairValue(s[n..]));
    }
  }

  /** The backend accepts exactly the strings the proxy prints for 32-byte digests, and each of
      them stands for one digest only. */
  lemma IdentitiesAreDigests(identity: string)
    ensures WellFormed(identity) <==>
      exists digest: seq<Byte> :: |digest| == DIGEST_BYTES && HexDigits(digest) == identity
    ensures forall d: seq<Byte>, e: seq<Byte> :: HexDigits(d) == HexDigits(e) ==> d == e
  {
    if WellFormed(identity) {
      HexInvertsUnhex(identity);
      assert |Unhex(identity)| == DIGEST_BYTES;
    }
    forall digest: seq<Byte> | |digest| == DIGEST_BYTES && HexDigits(digest) == identity
      ensures WellFormed(identity)
    {
      UnhexInvertsHex(digest);
    }
    forall d: seq<Byte>, e: seq<Byte> | HexDigits(d) == HexDigits(e)
      ensures d == e
    {
      UnhexInvertsHex(d);
      UnhexInvertsHex(e);
    }
  }

  /** Exactly one header value is let in, the print of a digest. */
  lemma OneIdentityOnly(values: seq<string>, identity: string)
    ensures Require(values) == Some(identity) <==>
      values == [identity] && exists digest: seq<Byte> :: |digest| == DIGEST_BYTES && HexDigits(digest) == identity
  {
    hide WellFormed, HexDigits;
    IdentitiesAreDigests(identity);
  }

  /** Whatever headers a client sends, the backend knows it by the digest of the key it proved to
      the proxy. */
  lemma {:induction false} BackendSeesTheProvenKey(headers: seq<ProxyHeaders.Header>, sent: seq<ProxyHeaders.Header>,
                                                   host: string, ip: string, digest: seq<Byte>)
    requires |digest| == DIGEST_BYTES
    requires forall n :: ProxyHeaders.Values(sent, n) == ProxyHeaders.Forwarded(headers, host, ip, HexDigits(digest), n)
    ensures ProxyHeaders.IsText(HexDigits(digest))
    ensures Require(ProxyHeaders.Values(sent, ProxyHeaders.CLIENT_IDENTITY)) == Some(HexDigits(digest))
  {
    UnhexInvertsHex(digest);
    assert ProxyHeaders.CLIENT_IDENTITY[0] != ProxyHeaders.CONTENT_LENGTH[0];
  }
}
