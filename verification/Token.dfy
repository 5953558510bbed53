/** The address validation token of a Retry packet (section 8.1.2 of RFC 9000): minting, reading, and exactly which
byte strings are accepted. */
module Token {
  import opened ConnectionIds

  const TOKEN_ID: Octet := 0xdc

  type Port = n: nat | n < 0x1_0000
  type Address4 = n: nat | n < 0x1_0000_0000
  type Address6 = s: seq<Octet> | |s| == 16 witness seq(16, _ => 0)

  datatype Endpoint = V4(port: Port, address: Address4) | V6(port: Port, bytes: Address6)

  /** What a ConnectionId has room for. */
  const CID_BYTES := 16

  /** read_token's answers. Converting an address to the other family throws; an id that a ConnectionId has no room for
  is copied all the same, and what happens then is not defined. */
  datatype Answer = Accepted(odcid: Cid) | Rejected | Thrown | Overlong

  // ----- Little-endian integers

  function Uint16Le(v: Port): (r: seq<Octet>)
    ensures |r| == 2
  {
    [v % 256, v / 256]
  }

  function Uint32Le(v: Address4): (r: seq<Octet>)
    ensures |r| == 4
  {
    [v % 256, v / 0x100 % 256, v / 0x1_0000 % 256, v / 0x100_0000]
  }

  function ReadUint16Le(s: seq<Octet>): Port
    requires |s| >= 2
  {
    (s[0] as int) + 0x100 * (s[1] as int)
  }

  function ReadUint32Le(s: seq<Octet>): Address4
    requires |s| >= 4
  {
    (s[0] as int) + 0x100 * (s[1] as int) + 0x1_0000 * (s[2] as int) + 0x100_0000 * (s[3] as int)
  }

  method WriteUint16Le(buffer: array<Octet>, at: nat, v: Port)
    requires at + 2 <= buffer.Length
    modifies buffer
    ensures buffer[..] == old(buffer[..at]) + Uint16Le(v) + old(buffer[at + 2..])
  {
    buffer[at] := v % 256;
    buffer[at + 1] := v / 0x100;
  }

  method WriteUint32Le(buffer: array<Octet>, at: nat, v: Address4)
    requires at + 4 <= buffer.Length
    modifies buffer
    ensures buffer[..] == old(buffer[..at]) + Uint32Le(v) + old(buffer[at + 4..])
  {
    buffer[at] := v % 256;
    buffer[at + 1] := v / 0x100 % 256;
    buffer[at + 2] := v / 0x1_0000 % 256;
    buffer[at + 3] := v / 0x100_0000;
  }

  lemma Uint16RoundTrip(v: Port)
    ensures ReadUint16Le(Uint16Le(v)) == v
  {
  }

  lemma Uint16Bytes(a: seq<Octet>)
    requires |a| == 2
    ensures Uint16Le(ReadUint16Le(a)) == a
  {
  }

  lemma Uint32RoundTrip(w: Address4)
    ensures ReadUint32Le(Uint32Le(w)) == w
  {
    var q := w / 0x100;
    assert q / 0x100 == w / 0x1_0000 && q / 0x1_0000 == w / 0x100_0000;
  }

  lemma Uint32Bytes(b: seq<Octet>)
    requires |b| == 4
    ensures Uint32Le(ReadUint32Le(b)) == b
  {
    var n: int, b1: int, b2: int, b3: int := ReadUint32Le(b), b[1], b[2], b[3];
    assert n / 0x100 == b1 + 0x100 * b2 + 0x1_0000 * b3;
    assert n / 0x1_0000 == b2 + 0x100 * b3;
    assert n / 0x100_0000 == b3;
  }

  // ----- The token

  function AddressBytes(e: Endpoint): (r: seq<Octet>)
    ensures |r| == if e.V4? then 4 else 16
  {
    if e.V4? then Uint32Le(e.address) else e.bytes
  }

  /** The token with a given family flag; mint_token writes 1 for v4 and 0 for v6. */
  function TokenWith(flag: Octet, dcid: Cid, e: Endpoint): seq<Octet> {
    [TOKEN_ID, |dcid| % 256, flag] + Uint16Le(e.port) + dcid + AddressBytes(e)
  }

  function Token(dcid: Cid, e: Endpoint): seq<Octet> {
    TokenWith(if e.V4? then 1 else 0, dcid, e)
  }

  method CopyBytes(buffer: array<Octet>, at: nat, bytes: seq<Octet>)
    requires at + |bytes| <= buffer.Length
    modifies buffer
    ensures buffer[..] == old(buffer[..at]) + bytes + old(buffer[at + |bytes|..])
  {
    for i := 0 to |bytes|
      invariant buffer[..] == old(buffer[..at]) + bytes[..i] + old(buffer[at + i..])
    {
      buffer[at + i] := bytes[i];
    }
  }

  lemma PrefixAfterWrite(before: seq<Octet>, after: seq<Octet>, at: nat, bytes: seq<Octet>)
    requires at + |bytes| <= |before| && after == before[..at] + bytes + before[at + |bytes|..]
    ensures |after| == |before| && after[..at + |bytes|] == before[..at] + bytes
  {
  }

  method MintToken(dcid: Cid, e: Endpoint) returns (token: array<Octet>)
    ensures fresh(token) && token[..] == Token(dcid, e)
  {
    token := new Octet[5 + |dcid| + if e.V4? then 4 else 16](_ => 0);
    token[0] := TOKEN_ID;
    token[1] := |dcid| % 256;
    token[2] := if e.V4? then 1 else 0;
    ghost var s3 := token[..];
    assert s3[..3] == [TOKEN_ID, |dcid| % 256, if e.V4? then 1 else 0];
    WriteUint16Le(token, 3, e.port);
    ghost var s5 := token[..];
    PrefixAfterWrite(s3, s5, 3, Uint16Le(e.port));
    CopyBytes(token, 5, dcid);
    ghost var s := token[..];
    PrefixAfterWrite(s5, s, 5, dcid);
    if e.V4? {
      WriteUint32Le(token, 5 + |dcid|, e.address);
    } else {
      CopyBytes(token, 5 + |dcid|, e.bytes);
    }
    PrefixAfterWrite(s, token[..], 5 + |dcid|, AddressBytes(e));
    assert token[..][..token.Length] == token[..];
  }

  function ReadAddress(isV4: bool, odcid: Cid, rest: seq<Octet>, e: Endpoint): Answer {
    if isV4 then
      if |rest| < 4 then Rejected
      else if e.V6? then Thrown
      else if e.address != ReadUint32Le(rest) then Rejected else Accepted(odcid)
    else
      if |rest| < 16 then Rejected
      else if e.V4? then Thrown
      else if rest[..16] != e.bytes then Rejected else Accepted(odcid)
  }

  /** read_token, check by check. */
  function ReadToken(token: seq<Octet>, e: Endpoint): Answer {
    if |token| < 9 || token[0] != TOKEN_ID then Rejected
    else if e.port != ReadUint16Le(token[3..]) then Rejected
    else if |token| - 5 < token[1] then Rejected
    else if token[1] > CID_BYTES then Overlong
    else ReadAddress(token[2] != 0, token[5..5 + token[1]], token[5 + token[1]..], e)
  }

  /** The reader as it walks the bytes. */
  method ParseToken(bytes: seq<Octet>, e: Endpoint) returns (answer: Answer)
    ensures answer == ReadToken(bytes, e)
  {
    var token := bytes;
    if |token| < 5 + 4 || token[0] != TOKEN_ID { return Rejected; }
    var length, isV4, port := token[1], token[2] != 0, ReadUint16Le(token[3..]);
    token := token[5..];
    if e.port != port { return Rejected; }
    if |token| < length { return Rejected; }
    if length > CID_BYTES { return Overlong; }
    var odcid := token[..length];
    token := token[length..];
    assert odcid == bytes[5..5 + length] && token == bytes[5 + length..];
    if isV4 {
      if |token| < 4 { return Rejected; }
      if e.V6? { return Thrown; }
      if e.address != ReadUint32Le(token) { return Rejected; }
    } else {
      if |token| < 16 { return Rejected; }
      if e.V4? { return Thrown; }
      if token[..16] != e.bytes { return Rejected; }
    }
    return Accepted(odcid);
  }

  // ----- What is accepted

  lemma TokenParts(flag: Octet, d: Cid, e: Endpoint, suffix: seq<Octet>)
    ensures var t := TokenWith(flag, d, e) + suffix;
      && |t| == 5 + |d| + |AddressBytes(e)| + |suffix|
      && t[0] == TOKEN_ID && t[1] == |d| % 256 && t[2] == flag
      && t[3..5] == Uint16Le(e.port) && t[5..5 + |d|] == d && t[5 + |d|..] == AddressBytes(e) + suffix
  {
  }

  /** A token is accepted for an endpoint, giving back an id, exactly when it is the token minted for them, up to the
  value of a nonzero v4 flag, followed by anything. */
  lemma AcceptedIffMinted(token: seq<Octet>, e: Endpoint, d: Cid)
    ensures ReadToken(token, e) == Accepted(d) <==>
      |d| <= CID_BYTES && exists flag: Octet, suffix: seq<Octet> ::
        (flag != 0 <==> e.V4?) && token == TokenWith(flag, d, e) + suffix
  {
    if ReadToken(token, e) == Accepted(d) {
      MintedIfAccepted(token, e, d);
    } else if |d| <= CID_BYTES {
      forall flag: Octet, suffix: seq<Octet> | flag != 0 <==> e.V4? ensures token != TokenWith(flag, d, e) + suffix {
        AcceptedIfMinted(flag, d, e, suffix);
      }
    }
  }

  lemma AcceptedIfMinted(flag: Octet, d: Cid, e: Endpoint, suffix: seq<Octet>)
    requires |d| <= CID_BYTES && (flag != 0 <==> e.V4?)
    ensures ReadToken(TokenWith(flag, d, e) + suffix, e) == Accepted(d)
  {
    TokenParts(flag, d, e, suffix);
    AcceptedIfParts(TokenWith(flag, d, e) + suffix, d, e, suffix);
  }

  lemma AcceptedIfParts(t: seq<Octet>, d: Cid, e: Endpoint, suffix: seq<Octet>)
    requires |d| <= CID_BYTES && |t| >= 9 + |d| && t[0] == TOKEN_ID && t[1] == |d| && (t[2] != 0 <==> e.V4?)
    requires t[3..5] == Uint16Le(e.port) && t[5..5 + |d|] == d && t[5 + |d|..] == AddressBytes(e) + suffix
    ensures ReadToken(t, e) == Accepted(d)
  {
    Uint16RoundTrip(e.port);
    assert t[3] == t[3..5][0] && t[4] == t[3..5][1];
    AddressAccepted(d, e, suffix);
  }

  lemma AddressAccepted(d: Cid, e: Endpoint, suffix: seq<Octet>)
    ensures ReadAddress(e.V4?, d, AddressBytes(e) + suffix, e) == Accepted(d)
  {
    if e.V4? {
      Uint32RoundTrip(e.address);
    } else {
      assert (AddressBytes(e) + suffix)[..16] == e.bytes;
    }
  }

  lemma MintedIfAccepted(token: seq<Octet>, e: Endpoint, d: Cid)
    requires ReadToken(token, e) == Accepted(d)
    ensures |d| <= CID_BYTES
    ensures exists flag: Octet, suffix: seq<Octet> ::
      (flag != 0 <==> e.V4?) && token == TokenWith(flag, d, e) + suffix
  {
    var rest := token[5 + |d|..];
    assert Uint16Le(e.port) == token[3..5] by {
      Uint16Bytes(token[3..5]);
      assert ReadUint16Le(token[3..]) == ReadUint16Le(token[3..5]);
    }
    AcceptedAddress(rest, e, d, token[2] != 0);
    Rebuild(token, e, d);
  }

  lemma Rebuild(token: seq<Octet>, e: Endpoint, d: Cid)
    requires |token| >= 5 + |d| + |AddressBytes(e)| && |d| < 256
    requires token[0] == TOKEN_ID && token[1] == |d| && token[3..5] == Uint16Le(e.port) && token[5..5 + |d|] == d
    requires token[5 + |d|..][..|AddressBytes(e)|] == AddressBytes(e)
    ensures token == TokenWith(token[2], d, e) + token[5 + |d|..][|AddressBytes(e)|..]
  {
    JoinParts(token, |d|, |AddressBytes(e)|);
  }

  lemma AcceptedAddress(rest: seq<Octet>, e: Endpoint, d: Cid, isV4: bool)
    requires ReadAddress(isV4, d, rest, e) == Accepted(d)
    ensures isV4 == e.V4? && |AddressBytes(e)| <= |rest| && rest[..|AddressBytes(e)|] == AddressBytes(e)
  {
    if isV4 {
      Uint32Bytes(rest[..4]);
      assert ReadUint32Le(rest) == ReadUint32Le(rest[..4]);
    }
  }

  lemma JoinParts(t: seq<Octet>, k: nat, n: nat)
    requires |t| >= 5 + k + n
    ensures t == [t[0], t[1], t[2]] + t[3..5] + t[5..5 + k] + t[5 + k..][..n] + t[5 + k..][n..]
  {
  }

  // ----- Main results

  /** Reading a minted token for the endpoint it was minted for gives the id back. */
  lemma RoundTrip(d: Cid, e: Endpoint)
    requires |d| <= 16
    ensures ReadToken(Token(d, e), e) == Accepted(d)
  {
    AcceptedIfMinted(if e.V4? then 1 else 0, d, e, []);
    assert Token(d, e) + [] == Token(d, e);
  }

  /** No token is a prefix of another: id, endpoint and suffix can be read off. */
  lemma TokensArePrefixFree(d: Cid, e: Endpoint, s: seq<Octet>, d': Cid, e': Endpoint, s': seq<Octet>)
    requires |d| <= 16 && |d'| <= 16 && Token(d, e) + s == Token(d', e') + s'
    ensures d == d' && e == e' && s == s'
  {
    TokenParts(if e.V4? then 1 else 0, d, e, s);
    TokenParts(if e'.V4? then 1 else 0, d', e', s');
    assert |d| == |d'| && (e.V4? <==> e'.V4?);
    var n := |AddressBytes(e)|;
    assert (AddressBytes(e) + s)[..n] == AddressBytes(e) && (AddressBytes(e') + s')[..n] == AddressBytes(e');
    assert (AddressBytes(e) + s)[n..] == s && (AddressBytes(e') + s')[n..] == s';
    Uint16RoundTrip(e.port);
    Uint16RoundTrip(e'.port);
    if e.V4? {
      Uint32RoundTrip(e.address);
      Uint32RoundTrip(e'.address);
    }
  }

  /** A token minted for one endpoint is accepted from no other: it is rejected, or reading throws. */
  lemma OtherEndpointsAreRefused(d: Cid, e: Endpoint, e': Endpoint)
    requires |d| <= 16 && e != e'
    ensures !ReadToken(Token(d, e), e').Accepted?
  {
    var t := Token(d, e);
    if ReadToken(t, e').Accepted? {
      var d' := ReadToken(t, e').odcid;
      MintedIfAccepted(t, e', d');
      var flag: Octet, suffix: seq<Octet> :| (flag != 0 <==> e'.V4?) && t == TokenWith(flag, d', e') + suffix;
      TokenParts(flag, d', e', suffix);
      TokenParts(if e.V4? then 1 else 0, d, e, []);
      assert t + [] == t;
      assert TokenWith(if e'.V4? then 1 else 0, d', e') + suffix == t;
      TokensArePrefixFree(d, e, [], d', e', suffix);
    }
  }

  /** Exactly when reading throws: every check before the address passes and the token's family is not the peer's. */
  lemma ThrownIff(token: seq<Octet>, e: Endpoint)
    ensures ReadToken(token, e) == Thrown <==>
      && |token| >= 9 && token[0] == TOKEN_ID && ReadUint16Le(token[3..]) == e.port
      && |token| >= 5 + (token[1] as int) + (if token[2] != 0 then 4 else 16)
      && token[1] as int <= CID_BYTES && (token[2] != 0) != e.V4?
  {
  }

  /** Exactly when reading copies an id past the room for it: before any byte of the address is compared. Minted tokens
  of ids that have room never are such. */
  lemma OverlongIff(token: seq<Octet>, e: Endpoint)
    ensures ReadToken(token, e) == Overlong <==>
      && |token| >= 9 && token[0] == TOKEN_ID && ReadUint16Le(token[3..]) == e.port
      && |token| >= 5 + (token[1] as int) && token[1] as int > CID_BYTES
  {
  }

  lemma MintedFit(d: Cid, e: Endpoint, e': Endpoint, suffix: seq<Octet>)
    requires |d| <= CID_BYTES
    ensures ReadToken(Token(d, e) + suffix, e') != Overlong
  {
    TokenParts(if e.V4? then 1 else 0, d, e, suffix);
    OverlongIff(Token(d, e) + suffix, e');
  }

  /** A v4 peer can bring that about: a token with family flag 0, the peer's own port, and sixteen bytes. */
  lemma ThrownExample()
    ensures ReadToken([TOKEN_ID, 0, 0, 1, 0] + seq(16, _ => 0), V4(1, 0)) == Thrown
  {
    ThrownIff([TOKEN_ID, 0, 0, 1, 0] + seq(16, _ => 0), V4(1, 0));
  }

  /** Two tokens byte by byte: for 127.0.0.1 and for ::1, both with port 4433 and an id of two bytes. */
  lemma TokenExamples()
    ensures Token([0xaa, 0xbb], V4(4433, 0x7f00_0001)) == [0xdc, 2, 1, 0x51, 0x11, 0xaa, 0xbb, 1, 0, 0, 0x7f]
    ensures Token([0xaa, 0xbb], V6(4433, seq(15, _ => 0) + [1])) ==
      [0xdc, 2, 0, 0x51, 0x11, 0xaa, 0xbb, 0, 0, 0, 0, 0, 0, 0, 0, 0, 0, 0, 0, 0, 0, 0, 1]
  {
  }
}
