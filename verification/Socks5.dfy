/** The SOCKS5 client handshake of RFC 1928 over a byte stream that may deliver its
    bytes in any fragments. */
module Socks5 {
  import opened Prelude
  import opened Splitting

  datatype Target = Ip(addr: SocketAddr) | Domain(host: Bytes, port: u16)

  datatype Error =
    | Io
    | DomainTooLong(length: nat)
    | EmptyDomain
    | UnsupportedAuth(authMethod: u8)
    | InvalidVersion(version: u8)
    | ConnectRejected(status: u8)
    | InvalidReserved(reserved: u8)
    | InvalidAddressType(addressType: u8)

  // ------------------------------------- addresses, as section 5 of RFC 1928 has them

  datatype Address =
    | AddressV4(ip4: Ipv4, port: u16)
    | AddressV6(ip6: Ipv6, port: u16)
    | AddressDomain(host: Bytes, port: u16)

  predicate Fits(a: Address) { a.AddressDomain? ==> |a.host| <= 255 }

  function BigEndian(port: u16): (s: Bytes)
    ensures |s| == 2
  {
    [(port as int / 256) as u8, (port as int % 256) as u8]
  }

  function FromBigEndian(s: Bytes): u16
    requires |s| == 2
  {
    (s[0] as int * 256 + s[1] as int) as u16
  }

  function Wire(a: Address): Bytes
    requires Fits(a)
  {
    match a
    case AddressV4(ip, port) => [0x01] + ip + BigEndian(port)
    case AddressV6(ip, port) => [0x04] + ip + BigEndian(port)
    case AddressDomain(host, port) => [0x03, |host| as u8] + host + BigEndian(port)
  }

  /** Reads an address off the front of a byte string, with what follows it. */
  function ReadAddress(s: Bytes): Option<(Address, Bytes)> {
    if |s| == 0 then None
    else if s[0] == 0x01 then
      if |s| < 7 then None else Some((AddressV4(s[1..5], FromBigEndian(s[5..7])), s[7..]))
    else if s[0] == 0x04 then
      if |s| < 19 then None else Some((AddressV6(s[1..17], FromBigEndian(s[17..19])), s[19..]))
    else if s[0] == 0x03 && |s| >= 2 then
      var end := 2 + s[1] as int;
      if |s| < end + 2 then None else Some((AddressDomain(s[2..end], FromBigEndian(s[end..end + 2])), s[end + 2..]))
    else None
  }

  lemma {:induction false} PortRoundTrip(port: u16, s: Bytes)
    ensures FromBigEndian(BigEndian(port)) == port
    ensures |s| == 2 ==> BigEndian(FromBigEndian(s)) == s
  {
  }

  lemma {:induction false} Slices(head: Bytes, body: Bytes, tail: Bytes, rest: Bytes)
    ensures
      var s := head + body + tail + rest;
      var i := |head|;
      var j := i + |body|;
      var k := j + |tail|;
      s[..i] == head && s[i..j] == body && s[j..k] == tail && s[k..] == rest
  {
  }

  lemma {:induction false} ReadsWhatIsWritten(a: Address, rest: Bytes)
    requires Fits(a)
    ensures ReadAddress(Wire(a) + rest) == Some((a, rest))
  {
    PortRoundTrip(a.port, []);
    match a
    case AddressV4(ip, port) => Slices([0x01], ip, BigEndian(port), rest);
    case AddressV6(ip, port) => Slices([0x04], ip, BigEndian(port), rest);
    case AddressDomain(host, port) =>
      Slices([0x03, |host| as u8], host, BigEndian(port), rest);
      assert (Wire(a) + rest)[..2] == [0x03, |host| as u8];
  }

  lemma {:induction false} WritesWhatIsRead(s: Bytes)
    requires ReadAddress(s).Some?
    ensures var (a, rest) := ReadAddress(s).value; Fits(a) && s == Wire(a) + rest
  {
    var (a, rest) := ReadAddress(s).value;
    if s[0] == 0x01 {
      PortRoundTrip(0, s[5..7]);
    } else if s[0] == 0x04 {
      PortRoundTrip(0, s[17..19]);
    } else {
      PortRoundTrip(0, s[2 + s[1] as int..4 + s[1] as int]);
    }
  }

  // ---------------------------------------------------------------- the request

  /** What a target asks for. Flow label and scope of an IPv6 socket address have no
      place in the protocol. */
  function Asked(target: Target): Address {
    match target
    case Ip(V4(ip, port)) => AddressV4(ip, port)
    case Ip(V6(ip, port, _, _)) => AddressV6(ip, port)
    case Domain(host, port) => AddressDomain(host, port)
  }

  predicate Encodable(target: Target) { target.Domain? ==> 1 <= |target.host| <= 255 }

  /** The CONNECT request of section 4. */
  function Request(target: Target): Bytes
    requires Encodable(target)
  {
    [0x05, 0x01, 0x00] + Wire(Asked(target))
  }

  /** The bytes of a request: version 5, CONNECT, reserved, the address type and the
      address or the length and the domain, and the port with its high byte first. */
  lemma {:induction false} RequestBytes(target: Target)
    requires Encodable(target)
    ensures
      var s := Request(target);
      match target
      case Ip(V4(ip, port)) =>
        s == [0x05, 0x01, 0x00, 0x01] + ip + [(port as int / 256) as u8, (port as int % 256) as u8]
      case Ip(V6(ip, port, _, _)) =>
        s == [0x05, 0x01, 0x00, 0x04] + ip + [(port as int / 256) as u8, (port as int % 256) as u8]
      case Domain(host, port) =>
        s == [0x05, 0x01, 0x00, 0x03, |host| as u8] + host + [(port as int / 256) as u8, (port as int % 256) as u8]
  {
    hide Request, Wire;
    RequestIs(target);
    match target
    case Ip(V4(ip, port)) => Regrouped([0x05, 0x01, 0x00], [0x01], ip, BigEndian(port));
    case Ip(V6(ip, port, _, _)) => Regrouped([0x05, 0x01, 0x00], [0x04], ip, BigEndian(port));
    case Domain(host, port) => Regrouped([0x05, 0x01, 0x00], [0x03, |host| as u8], host, BigEndian(port));
  }

  lemma {:induction false} RequestIs(target: Target)
    requires Encodable(target)
    ensures Request(target) == [0x05, 0x01, 0x00] + match target
      case Ip(V4(ip, port)) => [0x01] + ip + BigEndian(port)
      case Ip(V6(ip, port, _, _)) => [0x04] + ip + BigEndian(port)
      case Domain(host, port) => [0x03, |host| as u8] + host + BigEndian(port)
  {
  }

  lemma {:induction false} Regrouped(a: Bytes, b: Bytes, c: Bytes, d: Bytes)
    ensures a + (b + c + d) == a + b + c + d
  {
  }

  /** A server's reading of a request: version, command, reserved byte, address. */
  function ReadRequest(s: Bytes): Option<(Address, Bytes)> {
    if |s| >= 3 && s[0] == 0x05 && s[1] == 0x01 && s[2] == 0x00 then ReadAddress(s[3..]) else None
  }

  /** A server recovers every encodable target from its request, whatever bytes
      follow. */
  lemma {:induction false} RequestRoundTrip(target: Target, rest: Bytes)
    requires Encodable(target)
    ensures ReadRequest(Request(target) + rest) == Some((Asked(target), rest))
  {
    assert (Request(target) + rest)[3..] == Wire(Asked(target)) + rest;
    ReadsWhatIsWritten(Asked(target), rest);
  }

  /** No request is the beginning of another: a prefix asks for the same thing, and
      is the whole of it. */
  lemma {:induction false} RequestsPrefixFree(a: Target, b: Target)
    requires Encodable(a) && Encodable(b) && Request(a) <= Request(b)
    ensures Asked(a) == Asked(b) && Request(a) == Request(b)
  {
    hide Wire, ReadAddress, ReadRequest, Request, Asked;
    var rest := Request(b)[|Request(a)|..];
    assert Request(a) + rest == Request(b) == Request(b) + [];
    RequestRoundTrip(a, rest);
    RequestRoundTrip(b, []);
  }

  // -------------------------------------------------------------- the handshake

  const GREETING: Bytes := [0x05, 0x01, 0x00]

  function ReplyOutcome(s: Bytes): Result<Bytes, Error> {
    if |s| < 4 then Err(Io)
    else if s[0] != 0x05 then Err(InvalidVersion(s[0]))
    else if s[1] != 0x00 then Err(ConnectRejected(s[1]))
    else if s[2] != 0x00 then Err(InvalidReserved(s[2]))
    else if s[3] != 0x01 && s[3] != 0x03 && s[3] != 0x04 then Err(InvalidAddressType(s[3]))
    else if ReadAddress(s[3..]).None? then Err(Io)
    else Ok(ReadAddress(s[3..]).value.1)
  }

  /** Whether the server's bytes let the request be sent at all. */
  function GreetingFault(s: Bytes): Option<Error> {
    if |s| < 2 then Some(Io)
    else if s[0] != 0x05 then Some(InvalidVersion(s[0]))
    else if s[1] != 0x00 then Some(UnsupportedAuth(s[1]))
    else None
  }

  function TargetFault(target: Target): Option<Error> {
    if Encodable(target) then None
    else if |target.host| == 0 then Some(EmptyDomain) else Some(DomainTooLong(|target.host|))
  }

  /** What the client has to write before it reads the reply. */
  function Intended(target: Target, s: Bytes): Bytes {
    if GreetingFault(s).None? && Encodable(target) then GREETING + Request(target) else GREETING
  }

  /** The result of a handshake against a server that sends `s`, over a stream that
      takes `room` more bytes: the bytes left for the application, or an error. */
  function Outcome(target: Target, s: Bytes, room: nat): Result<Bytes, Error> {
    if room < |GREETING| then Err(Io)
    else if GreetingFault(s).Some? then Err(GreetingFault(s).value)
    else if TargetFault(target).Some? then Err(TargetFault(target).value)
    else if room < |Intended(target, s)| then Err(Io)
    else ReplyOutcome(s[2..])
  }

  /** What the client has written by the end: all it has to write, or as much of it as
      the stream takes. */
  function Emitted(target: Target, s: Bytes, room: nat): Bytes {
    Intended(target, s)[..Min(room, |Intended(target, s)|)]
  }

  /** A server's accepting greeting and success reply, sections 3 and 6. */
  function Accepting(bound: Address): Bytes
    requires Fits(bound)
  {
    [0x05, 0x00] + [0x05, 0x00, 0x00] + Wire(bound)
  }

  /** The handshake succeeds exactly when the server's bytes start with an accepting
      greeting and a well-formed success reply, and it leaves exactly the bytes
      after the bound address and port. */
  lemma {:induction false} ExactConsumption(target: Target, s: Bytes, room: nat, left: Bytes)
    requires Encodable(target) && room >= |GREETING + Request(target)|
    ensures Outcome(target, s, room) == Ok(left)
       <==> exists bound :: Fits(bound) && s == Accepting(bound) + left
  {
    hide Request, ReplyOutcome, Wire;
    if Outcome(target, s, room) == Ok(left) {
      AcceptedIsWellFormed(s, left);
    }
    if exists bound :: Fits(bound) && s == Accepting(bound) + left {
      var bound :| Fits(bound) && s == Accepting(bound) + left;
      WellFormedIsAccepted(bound, left);
    }
  }

  lemma {:induction false} AcceptedIsWellFormed(s: Bytes, left: Bytes)
    requires GreetingFault(s).None? && ReplyOutcome(s[2..]) == Ok(left)
    ensures exists bound :: Fits(bound) && s == Accepting(bound) + left
  {
    assert s[2..][3..] == s[5..];
    WritesWhatIsRead(s[5..]);
    var bound := ReadAddress(s[5..]).value.0;
    hide ReadAddress, Wire;
    Reassembled(s, bound, left);
  }

  lemma {:induction false} Reassembled(s: Bytes, bound: Address, left: Bytes)
    requires |s| >= 5 && s[0] == 5 && s[1] == 0 && s[2..][0] == 5 && s[2..][1] == 0 && s[2..][2] == 0
    requires Fits(bound) && s[5..] == Wire(bound) + left
    ensures s == Accepting(bound) + left
  {
    hide Wire;
    var head: Bytes := [0x05, 0x00] + [0x05, 0x00, 0x00];
    assert s[..5] == head && s == s[..5] + s[5..];
    assert head + (Wire(bound) + left) == head + Wire(bound) + left;
  }

  lemma {:induction false} WellFormedIsAccepted(bound: Address, left: Bytes)
    requires Fits(bound)
    ensures
      var s := Accepting(bound) + left;
      GreetingFault(s).None? && ReplyOutcome(s[2..]) == Ok(left)
  {
    var s := Accepting(bound) + left;
    assert s[2..][3..] == Wire(bound) + left;
    ReadsWhatIsWritten(bound, left);
    assert s[2..][3] == Wire(bound)[0] && |Wire(bound)| >= 1;
  }

  /** Every error of a handshake over a stream with room enough, from the bytes of the
      server's greeting and reply: the first byte that is wrong decides. */
  lemma {:induction false} ErrorsExactly(target: Target, s: Bytes, room: nat)
    requires Encodable(target) && room >= |GREETING + Request(target)|
    ensures
      var o := Outcome(target, s, room);
      var greeted := |s| >= 2 && s[0] == 5 && s[1] == 0;
      var replied := greeted && |s| >= 6;
      && (forall v :: o == Err(InvalidVersion(v)) <==>
            (|s| >= 2 && s[0] == v != 5) || (replied && s[2] == v != 5))
      && (forall m :: o == Err(UnsupportedAuth(m)) <==> |s| >= 2 && s[0] == 5 && s[1] == m != 0)
      && (forall m :: o == Err(ConnectRejected(m)) <==> replied && s[2] == 5 && s[3] == m != 0)
      && (forall b :: o == Err(InvalidReserved(b)) <==> replied && s[2] == 5 && s[3] == 0 && s[4] == b != 0)
      && (forall a :: o == Err(InvalidAddressType(a)) <==>
            replied && s[2] == 5 && s[3] == 0 && s[4] == 0 && s[5] == a && a !in [0x01, 0x03, 0x04])
      && o != Err(EmptyDomain) && (forall n :: o != Err(DomainTooLong(n)))
  {
    hide Request, Wire, ReadAddress;
    if |s| >= 2 {
      var reply := s[2..];
      assert |reply| == |s| - 2 && forall i :: 0 <= i < |reply| ==> reply[i] == s[i + 2];
    }
  }

  /** A stream that breaks off before the greeting or the request is written is an I/O
      error. */
  lemma {:induction false} BrokenWrites(target: Target, s: Bytes, room: nat)
    ensures room < 3 ==> Outcome(target, s, room) == Err(Io)
    ensures |s| >= 2 && s[0] == 5 && s[1] == 0 && Encodable(target) && room < 3 + |Request(target)| ==>
      Outcome(target, s, room) == Err(Io)
    ensures |s| < 2 ==> Outcome(target, s, room) == Err(Io)
  {
    hide Request, ReplyOutcome;
  }

  /** Which domains are refused, and how, by a server that greets well. */
  lemma {:induction false} DomainErrors(target: Target, s: Bytes, room: nat)
    requires |s| >= 2 && s[0] == 5 && s[1] == 0 && room >= 3
    ensures Outcome(target, s, room) == Err(EmptyDomain) <==> target.Domain? && target.host == []
    ensures forall n :: Outcome(target, s, room) == Err(DomainTooLong(n)) <==>
      target.Domain? && |target.host| == n > 255
  {
    hide Request, Wire, ReadAddress;
  }

  /** An empty or over-long domain never puts any of a request on the wire, and on
      success the whole request is there. */
  lemma {:induction false} NoRequestForUnencodable(target: Target, s: Bytes, room: nat)
    ensures Encodable(target) && room > |GREETING| && GreetingFault(s).None?
       <==> |Emitted(target, s, room)| > |GREETING|
    ensures !Encodable(target) ==> Outcome(target, s, room).Err? && Emitted(target, s, room) <= GREETING
    ensures Outcome(target, s, room).Ok? ==> Emitted(target, s, room) == GREETING + Request(target)
  {
    hide ReplyOutcome, Wire;
  }

  lemma {:induction false} CutAt(whole: Bytes, head: Bytes, tail: Bytes)
    requires head + tail == whole
    ensures |head| <= |whole| && whole[..|head|] == head && whole[|head|..] == tail
  {
  }

  /** Taking some bytes of the first fragment leaves the rest of the stream. */
  lemma {:induction false} FragmentTaken(fragments: seq<Bytes>, count: nat)
    requires fragments != [] && count <= |fragments[0]|
    ensures
      var left := if count < |fragments[0]| then [fragments[0][count..]] + fragments[1..] else fragments[1..];
      Flatten(fragments) == fragments[0][..count] + Flatten(left)
  {
    var next, later := fragments[0], fragments[1..];
    assert next == next[..count] + next[count..];
    assert ([next[count..]] + later)[1..] == later;
  }

  /** A duplex stream. `fragments` is what successive reads deliver before the end of
      the stream, `room` how many more bytes it takes before its writes fail. */
  class Stream {
    var fragments: seq<Bytes>
    var written: Bytes
    var room: nat

    constructor (fragments: seq<Bytes>, room: nat)
      ensures Rest() == Flatten(fragments) && written == [] && this.room == room
    {
      this.fragments, this.written, this.room := fragments, [], room;
    }

    function Rest(): Bytes
      reads this
    {
      Flatten(fragments)
    }

    method ReadExact(n: nat) returns (r: Option<Bytes>)
      modifies this`fragments
      ensures r == if |old(Rest())| >= n then Some(old(Rest())[..n]) else None
      ensures Rest() == if r.Some? then old(Rest())[n..] else []
    {
      assert Flatten([]) == [];
      hide Flatten;
      var buf: Bytes := [];
      while |buf| < n && fragments != []
        invariant |buf| <= n && buf + Rest() == old(Rest())
        decreases |fragments|, n - |buf|
      {
        var next := fragments[0];
        var count := Min(|next|, n - |buf|);
        FragmentTaken(fragments, count);
        ghost var rest := Rest();
        fragments := if count < |next| then [next[count..]] + fragments[1..] else fragments[1..];
        Regrouped([], buf, next[..count], Rest());
        assert (buf + next[..count]) + Rest() == buf + rest;
        buf := buf + next[..count];
      }
      CutAt(old(Rest()), buf, Rest());
      r := if |buf| == n then Some(buf) else None;
    }

    /** A write that fails midway leaves what the stream took of it. */
    method WriteAll(data: Bytes) returns (ok: bool)
      modifies this`written, this`room
      ensures ok == (|data| <= old(room))
      ensures written == old(written) + data[..Min(old(room), |data|)]
      ensures room == old(room) - Min(old(room), |data|)
    {
      ok := |data| <= room;
      var count := Min(room, |data|);
      written, room := written + data[..count], room - count;
    }

    method Connect(target: Target) returns (r: Result<(), Error>)
      modifies this
      ensures r == match Outcome(target, old(Rest()), old(room)) case Ok(_) => Ok(()) case Err(error) => Err(error)
      ensures r.Ok? ==> Outcome(target, old(Rest()), old(room)) == Ok(Rest())
      ensures |written| >= old(|written|) + 3 ==> written[old(|written|)..][..3] == [0x05, 0x01, 0x00]
      ensures written == old(written) + Emitted(target, old(Rest()), old(room))
    {
      hide Wire, ReadAddress, Request, ReplyOutcome, Flatten;
      var sent := WriteAll(GREETING);
      if !sent {
        return Err(Io);
      }
      var greeting := ReadExact(2);
      match greeting {
        case None => return Err(Io);
        case Some(bytes) =>
          if bytes[0] != 0x05 {
            return Err(InvalidVersion(bytes[0]));
          }
          if bytes[1] != 0x00 {
            return Err(UnsupportedAuth(bytes[1]));
          }
      }
      var request := BuildRequest(target);
      match request {
        case Err(error) => return Err(error);
        case Ok(bytes) =>
          sent := WriteAll(bytes);
          if !sent {
            return Err(Io);
          }
      }
      r := ReadReply();
    }

    method ReadReply() returns (r: Result<(), Error>)
      modifies this`fragments
      ensures r == match ReplyOutcome(old(Rest())) case Ok(_) => Ok(()) case Err(error) => Err(error)
      ensures r.Ok? ==> ReplyOutcome(old(Rest())) == Ok(Rest())
    {
      ghost var s := Rest();
      var reply := ReadExact(4);
      if reply.None? {
        return Err(Io);
      }
      var head := reply.value;
      if head[0] != 0x05 {
        return Err(InvalidVersion(head[0]));
      }
      if head[1] != 0x00 {
        return Err(ConnectRejected(head[1]));
      }
      if head[2] != 0x00 {
        return Err(InvalidReserved(head[2]));
      }
      var length: nat;
      if head[3] == 0x01 {
        length := 4;
      } else if head[3] == 0x04 {
        length := 16;
      } else if head[3] == 0x03 {
        var prefix := ReadExact(1);
        if prefix.None? {
          return Err(Io);
        }
        length := prefix.value[0] as int;
      } else {
        return Err(InvalidAddressType(head[3]));
      }
      var bound := ReadExact(length + 2);
      assert s[3..][0] == head[3];
      r := if bound.None? then Err(Io) else Ok(());
    }
  }

  method BuildRequest(target: Target) returns (r: Result<Bytes, Error>)
    ensures r == if Encodable(target) then Ok(Request(target)) else Err(TargetFault(target).value)
  {
    var request := [0x05, 0x01, 0x00];
    match target {
      case Ip(V4(ip, port)) =>
        request := request + [0x01];
        request := request + ip;
        request := request + BigEndian(port);
      case Ip(V6(ip, port, _, _)) =>
        request := request + [0x04];
        request := request + ip;
        request := request + BigEndian(port);
      case Domain(host, port) =>
        if |host| == 0 {
          return Err(EmptyDomain);
        }
        if |host| > 255 {
          return Err(DomainTooLong(|host|));
        }
        request := request + [0x03, |host| as u8];
        request := request + host;
        request := request + BigEndian(port);
    }
    assert request == Request(target);
    r := Ok(request);
  }
}
