/** A small concrete stand-in for the SOCKS 6 message library: every message starts with the
    protocol version and carries its own length, so it can be told apart from what follows it.
    Requests and both kinds of reply share one layout: version, code, kind, two bytes of TFO
    payload size, two bytes of option length, options. */
module Codec {

  type byte = x: int | 0 <= x < 256

  const SOCKS6_VERSION: byte := 6
  const HEADER := 7

  // Command, reply and address-type codes of the protocol.
  const REQUEST_NOOP: byte := 0
  const REQUEST_CONNECT: byte := 1
  const AUTH_SUCCESS: byte := 0
  const AUTH_FAILURE: byte := 1
  const OP_SUCCESS: byte := 0
  const OP_FAILURE: byte := 1
  const OP_CMD_NOT_SUPPORTED: byte := 7
  const OP_ADDR_NOT_SUPPORTED: byte := 8
  const ADDR_IPV4: byte := 1
  const ADDR_DOMAIN: byte := 3
  const ADDR_IPV6: byte := 4

  type Options = s: seq<byte> | |s| < 0x1_0000
  type Word = n: nat | n < 0x1_0000

  datatype AddrKind = Ipv4 | Domain | Ipv6

  function KindByte(kind: AddrKind): byte {
    match kind
    case Ipv4 => ADDR_IPV4
    case Domain => ADDR_DOMAIN
    case Ipv6 => ADDR_IPV6
  }

  predicate KnownKind(b: byte) { b == ADDR_IPV4 || b == ADDR_DOMAIN || b == ADDR_IPV6 }

  function KindOf(b: byte): (kind: AddrKind)
    requires KnownKind(b)
    ensures KindByte(kind) == b
  {
    if b == ADDR_IPV4 then Ipv4 else if b == ADDR_DOMAIN then Domain else Ipv6
  }

  /** `kind` is the address type of a request; `tfo` its TFO option (0 when absent). */
  datatype Message = Message(code: byte, kind: AddrKind, tfo: Word, options: Options)

  /** `Malformed`: any other exception of the library, which nobody but `runAs` catches. */
  datatype ParseResult =
    | Parsed(message: Message, used: nat)
    | EndOfBuffer
    | BadVersion
    | Malformed

  function Pack(m: Message): (s: seq<byte>)
    ensures |s| == HEADER + |m.options|
  {
    [SOCKS6_VERSION, m.code, KindByte(m.kind), m.tfo / 256, m.tfo % 256, |m.options| / 256, |m.options| % 256] + m.options
  }

  function Join(hi: int, lo: int): int { hi * 256 + lo }

  /** What is accepted is a packed message found at the front of the input. */
  function Parse(s: seq<byte>): (r: ParseResult)
    ensures r.Parsed? ==> r.used <= |s| && Pack(r.message) == s[..r.used]
  {
    if |s| == 0 then EndOfBuffer
    else if s[0] != SOCKS6_VERSION then BadVersion
    else if |s| > 2 && !KnownKind(s[2]) then Malformed
    else if |s| < HEADER then EndOfBuffer
    else
      var len := Join(s[5], s[6]);
      if |s| < HEADER + len then EndOfBuffer
      else Parsed(Message(s[1], KindOf(s[2]), Join(s[3], s[4]), s[HEADER..HEADER + len]), HEADER + len)
  }

  /** Whatever follows a packed message does not change what is parsed. */
  lemma ParsePack(m: Message, rest: seq<byte>)
    ensures Parse(Pack(m) + rest) == Parsed(m, |Pack(m)|)
  {
    var s := Pack(m) + rest;
    assert s[HEADER..HEADER + |m.options|] == m.options;
  }

  /** A message that has not wholly arrived is never accepted, nor taken for another one. */
  lemma ParseShort(m: Message, k: nat)
    requires k < |Pack(m)|
    ensures Parse(Pack(m)[..k]) == EndOfBuffer
  {
    var p := Pack(m);
    var s := p[..k];
    assert k > 0 ==> s[0] == p[0];
    assert k > 2 ==> s[2] == p[2];
    if k >= HEADER {
      assert s[5] == p[5] && s[6] == p[6];
    }
  }

  /** The parser accepts exactly the byte strings that begin with a packed message. */
  lemma ParseIff(s: seq<byte>, m: Message, n: nat)
    ensures Parse(s) == Parsed(m, n) <==> n == |Pack(m)| && Pack(m) <= s
  {
    if n == |Pack(m)| && Pack(m) <= s {
      assert s == Pack(m) + s[n..];
      ParsePack(m, s[n..]);
    }
    if Parse(s) == Parsed(m, n) {
      assert s[..n] == Pack(m);
    }
  }

  /** Each of the four outcomes, from the bytes alone: the parser waits exactly for the prefixes
      of packed messages, and refuses exactly what no packed message begins with. */
  lemma ParseDecides(s: seq<byte>)
    ensures Parse(s).EndOfBuffer? <==> exists m: Message :: s < Pack(m)
    ensures Parse(s).Parsed? <==> exists m: Message :: Pack(m) <= s
    ensures Parse(s).BadVersion? <==> s != [] && s[0] != SOCKS6_VERSION
    ensures Parse(s).Malformed? <==> |s| > 2 && s[0] == SOCKS6_VERSION && !KnownKind(s[2])
  {
    if m: Message :| s < Pack(m) {
      assert s == Pack(m)[..|s|];
      ParseShort(m, |s|);
    }
    if m: Message :| Pack(m) <= s {
      ParseIff(s, m, |Pack(m)|);
    }
    if Parse(s).EndOfBuffer? {
      var m := Completion(s);
      assert s < Pack(m);
    }
    if Parse(s).Parsed? {
      assert Pack(Parse(s).message) <= s;
    }
  }

  /** A message that the bytes are the beginning of: what is missing of it is zero. */
  lemma Completion(s: seq<byte>) returns (m: Message)
    requires Parse(s).EndOfBuffer?
    ensures s < Pack(m)
  {
    if |s| < HEADER {
      var h := s + [SOCKS6_VERSION, 0, ADDR_IPV4, 0, 0, 0, 0][|s|..];
      m := CompleteFrom(h);
      assert s == h[..|s|];
    } else {
      m := CompleteFrom(s);
    }
  }

  lemma CompleteFrom(h: seq<byte>) returns (m: Message)
    requires |h| >= HEADER && h[0] == SOCKS6_VERSION && KnownKind(h[2]) && |h| <= HEADER + Join(h[5], h[6])
    ensures h <= Pack(m)
  {
    var pad: seq<byte> := seq(HEADER + Join(h[5], h[6]) - |h|, _ => 0);
    var options := h[HEADER..] + pad;
    m := Message(h[1], KindOf(h[2]), Join(h[3], h[4]), options);
    assert |options| == Join(h[5], h[6]);
    assert Pack(m) == h[..HEADER] + options;
    assert h == h[..HEADER] + h[HEADER..];
  }

  /** Once the parser has decided, more bytes never change its mind. */
  lemma ParseStable(s: seq<byte>, t: seq<byte>)
    requires !Parse(s).EndOfBuffer?
    ensures Parse(s + t) == Parse(s)
  {
    var u := s + t;
    assert u[0] == s[0] && (|s| > 2 ==> u[2] == s[2]);
    if Parse(s).Parsed? {
      var m, n := Parse(s).message, Parse(s).used;
      ParseIff(s, m, n);
      assert Pack(m) <= u;
      ParseIff(u, m, n);
    }
  }

  /** On any prefix of a stream that starts with `m`, the parser yields `m` or waits. */
  lemma ParseOfStream(m: Message, rest: seq<byte>, s: seq<byte>)
    requires s <= Pack(m) + rest
    ensures Parse(s) == if |s| < |Pack(m)| then EndOfBuffer else Parsed(m, |Pack(m)|)
  {
    if |s| < |Pack(m)| {
      assert s == Pack(m)[..|s|];
      ParseShort(m, |s|);
    } else {
      assert s == Pack(m) + s[|Pack(m)|..];
      ParsePack(m, s[|Pack(m)|..]);
    }
  }
}
