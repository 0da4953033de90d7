/** The two reactors of one proxified connection: proxifier/proxifierupstreamer.cc (with the
    client half of tls/tls.cc) and proxifier/proxifierdownstreamer.cc. Every function below is
    the effect of one system call and of the code that runs up to the next one. */
module ProxifierReactors {
  import opened Codec
  import opened Buffers
  import opened Logs
  import opened Relays

  // ----- upstream: application -> proxy -----

  /** `Fresh` and `Opening` are the two halves of `start`; the rest are the source's states. */
  datatype UpPhase = Fresh | Opening | Connecting | Handshaking | SendingReq | Streaming

  /** `TLS::HandshakeState`, with `earlyWritten` where it matters. */
  datatype Tls = NoTls | WantEarly | WantHandshake(early: nat) | LaissezFaire

  datatype Upstream = Upstream(phase: UpPhase, tls: Tls, relay: Relay)

  function SetCtl(s: Upstream, ctl: Ctl): Upstream { s.(relay := Settle(s.relay, ctl)) }

  function NewUpstream(tls: bool): Upstream {
    Upstream(Fresh, if tls then WantEarly else NoTls,
             Relay(Receiving, EMPTY_BUF.MakeHeadroom(HEADROOM), true, true, Running, []))
  }

  /** The opportunistic read of `start`, then the request goes in front. End of file is not
      acted upon here: the next read will see it again. */
  function UpRead(s: Upstream, o: RecvOutcome, request: seq<byte>): Upstream {
    match SockRecv(s.relay.buf, o)
    case Fault => SetCtl(s, Dead)
    case Resched(_) => UpPrepend(s, s.relay.buf, request)
    case Bytes(_, b) => UpPrepend(s, b, request)
  }

  function UpPrepend(s: Upstream, b: Buf, request: seq<byte>): Upstream {
    if b.Fits(|request| % 256)
    then s.(phase := Opening, relay := s.relay.(buf := b.Prepend(request)))
    else SetCtl(s.(relay := s.relay.(buf := b)), Dead)
  }

  datatype ConnectOutcome = Connected | FastOpened(n: nat) | ConnectFailed

  /** How much of the buffer `sockConnect` hands to the kernel together with the SYN. */
  function TfoCount(b: Buf, o: ConnectOutcome, maxPayload: nat): nat {
    if o.FastOpened? && maxPayload > 0 then Min(o.n, Min(b.Used(), maxPayload)) else 0
  }

  function TfoRest(b: Buf, o: ConnectOutcome, maxPayload: nat): Buf {
    var k := TfoCount(b, o, maxPayload);
    if k > 0 then b.Unuse(k) else b
  }

  /** `sockConnect`, then `StreamReactor::start`. With TLS nothing leaves the buffer yet. */
  function UpOpen(s: Upstream, o: ConnectOutcome, maxPayload: nat, early: bool): Upstream {
    if o.ConnectFailed? then SetCtl(s, Dead)
    else if s.tls.NoTls? then
      s.(phase := Connecting, relay := Start(s.relay.(buf := TfoRest(s.relay.buf, o, maxPayload))))
    else
      s.(phase := Connecting, tls := if early then WantEarly else LaissezFaire, relay := Start(s.relay))
  }

  function UpWake(s: Upstream): Upstream { s.(relay := Wake(s.relay)) }

  /** `getsockopt(SO_ERROR)`. */
  function UpCheck(s: Upstream, failed: bool): Upstream {
    if failed then SetCtl(s, Dead) else s.(phase := Handshaking)
  }

  /** How many bytes of early data NSS takes. They stay in the buffer for now. */
  function EarlyCount(b: Buf, w: SendOutcome): nat {
    if w.Accepted? then Min(w.n, b.Used()) else 0
  }

  function UpEarly(s: Upstream, w: SendOutcome): Upstream {
    match w
    case SendAgain(dir) => SetCtl(s, Armed(Dst, dir))
    case SendFailed => SetCtl(s, Dead)
    case _ => s.(tls := WantHandshake(EarlyCount(s.relay.buf, w)))
  }

  /** `ForceEof`: the connection ended during the handshake; the code goes on all the same, with
      what NSS knows by then about early data. */
  datatype ForceOutcome = ForceDone(accepted: bool) | ForceEof(accepted: bool) | ForceAgain(dir: Dir) | ForceFailed

  /** The handshake completes: early data the server accepted leaves the buffer. */
  function UpForce(s: Upstream, o: ForceOutcome): Upstream {
    match o
    case ForceAgain(dir) => SetCtl(s, Armed(Dst, dir))
    case ForceFailed => SetCtl(s, Dead)
    case ForceDone(accepted) => UpShaken(s, accepted)
    case ForceEof(accepted) => UpShaken(s, accepted)
  }

  function UpShaken(s: Upstream, accepted: bool): Upstream {
    var b := s.relay.buf;
    var k := if accepted && s.tls.WantHandshake? then Min(s.tls.early, b.Used()) else 0;
    s.(phase := SendingReq, tls := LaissezFaire, relay := s.relay.(buf := if accepted then b.Unuse(k) else b))
  }

  /** Nothing to shake hands about. */
  function UpSkip(s: Upstream): Upstream { s.(phase := SendingReq) }

  function UpStream(s: Upstream): Upstream {
    s.(phase := Streaming, relay := s.relay.(mode := if s.relay.buf.Used() > 0 then Sending else Receiving))
  }

  /** The first send of the request; on success the downstreamer is created and relaying begins. */
  function UpRequest(s: Upstream, w: SendOutcome): Upstream {
    if s.relay.buf.Used() == 0 then UpStream(s)
    else
      match SockSend(s.relay.buf, w)
      case Resched(dir) => SetCtl(s, Armed(Dst, dir))
      case Fault => SetCtl(s, Dead)
      case Bytes(n, b) =>
        if n == 0 then SetCtl(s, Idle) else UpStream(s.(relay := s.relay.(buf := b)))
  }

  /** The answers the kernel and NSS give during one call of `process`, if asked. */
  datatype UpIo = UpIo(soError: bool, early: SendOutcome, force: ForceOutcome,
                       request: SendOutcome, recv: RecvOutcome, send: SendOutcome)

  function UpHandshake(s: Upstream, io: UpIo): Upstream {
    match s.tls
    case NoTls => UpSkip(s)
    case LaissezFaire => UpSkip(s)
    case WantHandshake(_) => UpForce(s, io.force)
    case WantEarly =>
      var mid := UpEarly(s, io.early);
      if mid.relay.ctl.Running? then UpForce(mid, io.force) else mid
  }

  /** A whole call of `ProxifierUpstreamer::process`, falling through its states. */
  function UpProcess(s: Upstream, io: UpIo): Upstream {
    var s1 := if s.phase.Connecting? then UpCheck(s, io.soError) else s;
    var s2 := if s1.relay.ctl.Running? && s1.phase.Handshaking? then UpHandshake(s1, io) else s1;
    var s3 := if s2.relay.ctl.Running? && s2.phase.SendingReq? then UpRequest(s2, io.request) else s2;
    if s3.relay.ctl.Running? && s3.phase.Streaming? then s3.(relay := Process(s3.relay, io.recv, io.send)) else s3
  }

  /** What that call writes to the proxy. */
  function UpProcessPuts(s: Upstream, io: UpIo): seq<byte> {
    var s1 := if s.phase.Connecting? then UpCheck(s, io.soError) else s;
    var s2 := if s1.relay.ctl.Running? && s1.phase.Handshaking? then UpHandshake(s1, io) else s1;
    var req := s2.relay.ctl.Running? && s2.phase.SendingReq?;
    var s3 := if req then UpRequest(s2, io.request) else s2;
    (if req && s2.relay.buf.Used() > 0 then Puts(s2.relay.buf, io.request) else []) +
    (if s3.relay.ctl.Running? && s3.phase.Streaming? then ProcessPuts(s3.relay, io.recv, io.send) else [])
  }

  /** A whole call of `ProxifierUpstreamer::start`. */
  function UpStart(s: Upstream, r: RecvOutcome, request: seq<byte>, o: ConnectOutcome, maxPayload: nat, early: bool): Upstream {
    var mid := UpRead(s, r, request);
    if mid.relay.ctl.Running? then UpOpen(mid, o, maxPayload, early) else mid
  }

  /** The request goes in front of the early payload unharmed if and only if it has at most
      255 bytes: `prepend` takes its length as a `uint8_t`. */
  lemma RequestPrependedExactly(r: RecvOutcome, request: seq<byte>, tls: bool)
    requires |request| <= HEADROOM && !r.RecvFailed?
    ensures var s := NewUpstream(tls);
            var q := UpRead(s, r, request);
            && q.phase.Opening? && q.relay.ctl.Running?
            && (q.relay.buf.data == request + Gets(s.relay.buf, r) <==> |request| <= 255)
            && q.relay.buf.head + |request| % 256 == HEADROOM
  {
    var buf := NewUpstream(tls).relay.buf;
    IoEffect(buf, r, SendBroken);
    var b := if r.Received? || r.RecvBroken? then SockRecv(buf, r).buf else buf;
    assert b.data == Gets(buf, r);
    PrependExact(b, request);
  }

  /** `k` is the least of the three. */
  predicate Least(k: nat, a: nat, b: nat, c: nat) { k <= a && k <= b && k <= c && (k == a || k == b || k == c) }

  /** What leaves the buffer before the connection stands: with TFO, the first bytes, as many as
      the kernel took of those allowed; as early data, none yet, and if it is accepted, exactly
      the bytes that were written. */
  lemma FirstBytesExact(s: Upstream, o: ConnectOutcome, max: nat, early: bool, w: SendOutcome, accepted: bool)
    requires s.relay.buf.Valid()
    ensures var data := s.relay.buf.data;
            var k := TfoCount(s.relay.buf, o, max);
            && k <= |data| && (o.FastOpened? ==> Least(k, o.n, |data|, max)) && (!o.FastOpened? ==> k == 0)
            && UpOpen(s, o, max, early).relay.buf.data == (if s.tls.NoTls? && !o.ConnectFailed? then data[k..] else data)
            && (s.tls.NoTls? || o.ConnectFailed? ==> UpOpen(s, o, max, early).tls == s.tls)
            && (!s.tls.NoTls? && !o.ConnectFailed? ==> UpOpen(s, o, max, early).tls == if early then WantEarly else LaissezFaire)
    ensures s.tls.WantEarly? && (w.Accepted? || w.SendBroken?) ==>
              var q := UpEarly(s, w);
              && q.tls.WantHandshake? && q.relay == s.relay
              && Least(q.tls.early, if w.Accepted? then w.n else 0, |s.relay.buf.data|, |s.relay.buf.data|)
    ensures s.tls.WantHandshake? && s.tls.early <= |s.relay.buf.data| ==>
              var q := UpShaken(s, accepted);
              && q.tls.LaissezFaire? && q.relay.buf.data == if accepted then s.relay.buf.data[s.tls.early..] else s.relay.buf.data
  {
  }

  class ProxifierUpstreamer {
    const stream: StreamReactor
    var state: UpPhase
    var tls: Tls

    ghost predicate Valid()
      reads this, stream, stream.buf
    {
      stream.Valid() && this !in stream.Repr
    }

    ghost function View(): Upstream
      requires Valid()
      reads this, stream, stream.buf, stream.buf.buf
    {
      Upstream(state, tls, stream.View())
    }

    constructor (useTls: bool)
      ensures Valid() && fresh(stream.Repr)
      ensures View() == NewUpstream(useTls)
    {
      var s := new StreamReactor(true, true);
      var ok := s.buf.MakeHeadroom(HEADROOM);
      stream, state := s, Fresh;
      tls := if useTls then WantEarly else NoTls;
    }

    /** `request` is the packed request; what TFO takes of the buffer is returned. */
    method Start(r: RecvOutcome, request: seq<byte>, o: ConnectOutcome, maxPayload: nat, early: bool)
      returns (sent: seq<byte>)
      requires Valid() && state.Fresh? && stream.ctl.Running?
      modifies this, stream.Repr
      ensures Valid() && View() == UpStart(old(View()), r, request, o, maxPayload, early)
      ensures var mid := UpRead(old(View()), r, request);
              sent == if mid.relay.ctl.Running? && tls.NoTls? then mid.relay.buf.data[..TfoCount(mid.relay.buf, o, maxPayload)] else []
    {
      hide UpOpen, TfoCount;
      sent := [];
      var c := stream.Receive(r);
      if c.Threw? {
        stream.SetCtl(Dead);
        return;
      }
      var ok := stream.buf.Prepend(request);
      if !ok {
        stream.SetCtl(Dead);
        return;
      }
      state := Opening;
      sent := SockConnect(o, maxPayload, early);
    }

    method SockConnect(o: ConnectOutcome, maxPayload: nat, early: bool) returns (sent: seq<byte>)
      requires Valid() && state.Opening? && stream.ctl.Running?
      modifies this, stream.Repr
      ensures Valid() && View() == UpOpen(old(View()), o, maxPayload, early)
      ensures sent == if tls.NoTls? then old(View()).relay.buf.data[..TfoCount(old(View()).relay.buf, o, maxPayload)] else []
      ensures tls.NoTls? <==> old(tls).NoTls?
    {
      sent := [];
      if o.ConnectFailed? {
        stream.SetCtl(Dead);
        return;
      }
      if !tls.NoTls? {
        tls := if early then WantEarly else LaissezFaire;
      } else if maxPayload > 0 && o.FastOpened? {
        var used := stream.buf.UsedSize();
        var n := Min(o.n, Min(used, maxPayload));
        sent := stream.buf.Peek(n);
        if n > 0 {
          stream.buf.Unuse(n);
        }
      }
      state := Connecting;
      stream.Begin();
    }

    /** S_WANT_EARLY. */
    method WriteEarly(w: SendOutcome)
      requires Valid() && state.Handshaking? && tls.WantEarly? && stream.ctl.Running?
      modifies this`tls, stream`ctl, stream`acts
      ensures Valid() && View() == UpEarly(old(View()), w)
    {
      match w
      case SendAgain(dir) => stream.SetCtl(Armed(Dst, dir));
      case SendFailed => stream.SetCtl(Dead);
      case Accepted(n) =>
        var used := stream.buf.UsedSize();
        tls := WantHandshake(Min(n, used));
      case SendBroken => tls := WantHandshake(0);
    }

    /** S_WANT_HANDSHAKE. */
    method ForceHandshake(o: ForceOutcome)
      requires Valid() && state.Handshaking? && tls.WantHandshake? && stream.ctl.Running?
      requires tls.early <= stream.buf.View().Used()
      modifies this, stream.buf, stream`ctl, stream`acts
      ensures Valid() && View() == UpForce(old(View()), o)
    {
      match o
      case ForceAgain(dir) => stream.SetCtl(Armed(Dst, dir));
      case ForceFailed => stream.SetCtl(Dead);
      case _ =>
        if o.accepted {
          stream.buf.Unuse(tls.early);
        }
        tls, state := LaissezFaire, SendingReq;
    }

    /** `TLS::clientHandshake`. */
    method ClientHandshake(io: UpIo)
      requires Valid() && state.Handshaking? && stream.ctl.Running?
      requires tls.WantHandshake? ==> tls.early <= stream.buf.View().Used()
      modifies this, stream.Repr
      ensures Valid() && View() == UpHandshake(old(View()), io)
    {
      if !tls.WantEarly? && !tls.WantHandshake? {
        state := SendingReq;
        return;
      }
      if tls.WantEarly? {
        WriteEarly(io.early);
      }
      if stream.ctl.Running? {
        ForceHandshake(io.force);
      }
    }

    method SendRequest(w: SendOutcome) returns (sent: seq<byte>)
      requires Valid() && state.SendingReq? && stream.ctl.Running?
      modifies this, stream.Repr
      ensures Valid() && View() == UpRequest(old(View()), w)
      ensures sent == if old(View()).relay.buf.Used() > 0 then Puts(old(View()).relay.buf, w) else []
    {
      sent := [];
      var used := stream.buf.UsedSize();
      if used > 0 {
        var c;
        c, sent := stream.Transmit(w);
        match c {
          case WouldBlock(dir) => stream.SetCtl(Armed(Dst, dir)); return;
          case Threw => stream.SetCtl(Dead); return;
          case Count(n) =>
            if n == 0 {
              stream.SetCtl(Idle);
              return;
            }
        }
      }
      state := Streaming;
      used := stream.buf.UsedSize();
      stream.streamState := if used > 0 then Sending else Receiving;
    }

    method Process(io: UpIo) returns (sent: seq<byte>)
      requires Valid() && stream.ctl.Running? && !state.Fresh? && !state.Opening?
      requires tls.WantHandshake? ==> tls.early <= stream.buf.View().Used()
      modifies this, stream.Repr
      ensures Valid() && View() == UpProcess(old(View()), io) && sent == UpProcessPuts(old(View()), io)
    {
      sent := [];
      if state.Connecting? {
        if io.soError {
          stream.SetCtl(Dead);
          return;
        }
        state := Handshaking;
      }
      if state.Handshaking? {
        ClientHandshake(io);
      }
      if stream.ctl.Running? && state.SendingReq? {
        sent := SendRequest(io.request);
      }
      if stream.ctl.Running? && state.Streaming? {
        var more := stream.Step(io.recv, io.send);
        sent := sent + more;
      }
    }
  }

  // ----- downstream: proxy -> application -----

  datatype DownPhase = WaitAuth | WaitOp | DownStream

  datatype Downstream = Downstream(phase: DownPhase, relay: Relay)

  function NewDownstream(): Downstream {
    Downstream(WaitAuth, Start(Relay(Receiving, EMPTY_BUF, true, true, Running, [])))
  }

  function DownCtl(s: Downstream, ctl: Ctl): Downstream { s.(relay := Settle(s.relay, ctl)) }

  /** Tries to take the authentication reply off the buffer. */
  function DownAuth(s: Downstream): Downstream {
    match Parse(s.relay.buf.data)
    case EndOfBuffer => DownCtl(s, Armed(Src, In))
    case BadVersion => DownCtl(s, Dead)
    case Malformed => DownCtl(s, Dead)
    case Parsed(m, n) =>
      if m.code != AUTH_SUCCESS then DownCtl(s, Dead)
      else DownOp(s.(phase := WaitOp, relay := s.relay.(buf := s.relay.buf.Unuse(n))))
  }

  /** Tries to take the operation reply off the buffer; a refusal ends the connection. */
  function DownOp(s: Downstream): Downstream {
    match Parse(s.relay.buf.data)
    case EndOfBuffer => DownCtl(s, Armed(Src, In))
    case BadVersion => DownCtl(s, Dead)
    case Malformed => DownCtl(s, Dead)
    case Parsed(m, n) =>
      if m.code != OP_SUCCESS then DownCtl(s, Idle)
      else
        var b := s.relay.buf.Unuse(n);
        s.(phase := DownStream,
           relay := s.relay.(buf := b, mode := if b.Used() > 0 then Sending else Receiving))
  }

  /** A read in one of the two waiting states. */
  function DownRead(s: Downstream, o: RecvOutcome): Downstream {
    match SockRecv(s.relay.buf, o)
    case Resched(dir) => DownCtl(s, Armed(Src, dir))
    case Fault => DownCtl(s, Dead)
    case Bytes(n, b) =>
      if n == 0 then DownCtl(s, if s.phase.WaitAuth? then Dead else Idle)
      else
        var read := s.(relay := s.relay.(buf := b));
        if s.phase.WaitAuth? then DownAuth(read) else DownOp(read)
  }

  /** A whole call of `ProxifierDownstreamer::process`. */
  function DownProcess(s: Downstream, first: RecvOutcome, r: RecvOutcome, w: SendOutcome): Downstream {
    var mid := if s.phase.DownStream? then s else DownRead(s, first);
    if mid.relay.ctl.Running? && mid.phase.DownStream? then mid.(relay := Process(mid.relay, r, w)) else mid
  }

  class ProxifierDownstreamer {
    const stream: StreamReactor
    var state: DownPhase

    ghost predicate Valid()
      reads this, stream, stream.buf
    {
      stream.Valid() && this !in stream.Repr
    }

    ghost function View(): Downstream
      requires Valid()
      reads this, stream, stream.buf, stream.buf.buf
    {
      Downstream(state, stream.View())
    }

    constructor ()
      ensures Valid() && fresh(stream.Repr)
      ensures View() == NewDownstream()
    {
      var s := new StreamReactor(true, true);
      s.Begin();
      stream, state := s, WaitAuth;
    }

    method Buffered() returns (data: seq<byte>)
      requires Valid()
      ensures data == View().relay.buf.data
    {
      var used := stream.buf.UsedSize();
      data := stream.buf.Peek(used);
    }

    method AuthReplyTaken(n: nat)
      requires Valid() && n <= stream.buf.View().Used()
      modifies this, stream.buf
      ensures Valid()
      ensures View() == old(View()).(phase := WaitOp, relay := old(View()).relay.(buf := old(View()).relay.buf.Unuse(n)))
    {
      stream.buf.Unuse(n);
      state := WaitOp;
    }

    method TakeAuthReply()
      requires Valid() && state.WaitAuth? && stream.ctl.Running?
      modifies this, stream.Repr
      ensures Valid() && View() == DownAuth(old(View()))
    {
      var data := Buffered();
      match Parse(data)
      case EndOfBuffer => stream.SetCtl(Armed(Src, In));
      case BadVersion => stream.SetCtl(Dead);
      case Malformed => stream.SetCtl(Dead);
      case Parsed(m, n) =>
        if m.code != AUTH_SUCCESS {
          stream.SetCtl(Dead);
          return;
        }
        AuthReplyTaken(n);
        TakeOpReply();
    }

    method TakeOpReply()
      requires Valid() && state.WaitOp? && stream.ctl.Running?
      modifies this, stream.Repr
      ensures Valid() && View() == DownOp(old(View()))
    {
      var data := Buffered();
      match Parse(data)
      case EndOfBuffer => stream.SetCtl(Armed(Src, In));
      case BadVersion => stream.SetCtl(Dead);
      case Malformed => stream.SetCtl(Dead);
      case Parsed(m, n) =>
        if m.code != OP_SUCCESS {
          stream.SetCtl(Idle);
          return;
        }
        stream.buf.Unuse(n);
        state := DownStream;
        var used := stream.buf.UsedSize();
        stream.streamState := if used > 0 then Sending else Receiving;
    }

    /** `first` answers the read of a waiting state, `r` and `w` the relay's calls. */
    method Process(first: RecvOutcome, r: RecvOutcome, w: SendOutcome) returns (sent: seq<byte>)
      requires Valid() && stream.ctl.Running?
      modifies this, stream.Repr
      ensures Valid() && View() == DownProcess(old(View()), first, r, w)
      ensures var mid := if old(state).DownStream? then old(View()) else DownRead(old(View()), first);
              sent == if mid.relay.ctl.Running? && mid.phase.DownStream? then ProcessPuts(mid.relay, r, w) else []
    {
      sent := [];
      if !state.DownStream? {
        AwaitReplies(first);
      }
      if stream.ctl.Running? && state.DownStream? {
        sent := stream.Step(r, w);
      }
    }

    /** The two waiting states. */
    method AwaitReplies(first: RecvOutcome)
      requires Valid() && stream.ctl.Running? && !state.DownStream?
      modifies this, stream.Repr
      ensures Valid() && View() == DownRead(old(View()), first)
    {
      var c := stream.Receive(first);
      match c
      case WouldBlock(dir) => stream.SetCtl(Armed(Src, dir));
      case Threw => stream.SetCtl(Dead);
      case Count(n) =>
        if n == 0 {
          stream.SetCtl(if state.WaitAuth? then Dead else Idle);
        } else if state.WaitAuth? {
          TakeAuthReply();
        } else {
          TakeOpReply();
        }
    }
  }
}
