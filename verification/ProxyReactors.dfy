/** The reactors of one connection inside the proxy: proxy/proxyupstreamer.cc,
    proxy/authserver.cc, proxy/connectproxydownstreamer.cc and proxy/simpleproxydownstreamer.cc.
    Every function is the effect of one system call and of the code up to the next one. */
module ProxyReactors {
  import opened Wrappers
  import opened Codec
  import opened Buffers
  import opened Logs
  import opened Relays
  import opened ProxifierReactors

  const MSS := 1460

  /** `AwaitingAuth`: the request is parsed and the AuthServer is at work. `Honoring`:
      `honorConnect` is about to create the remote socket. `ReadingTfo(true)`: still inside
      `honorRequest`, whose catch-all turns any exception into a FAILURE reply. `ConnectCall`:
      about to connect. `Answered`: a one-shot reply has been handed over. */
  datatype Phase =
    | ReadingReq
    | AwaitingAuth
    | Honoring
    | ReadingTfo(honoring: bool)
    | ConnectCall
    | AwaitingConnect
    | Relaying
    | Answered

  /** The AuthServer: its reply, what is left of it to send, and how it stands. */
  datatype AuthState = NoAuth | Auth(reply: Message, buf: Buf, ctl: Ctl, acts: seq<Action>)

  /** The downstreamer, if any: it relays to the client what it was loaded with, and for a
      CONNECT what the remote sends after that. */
  datatype ReplyState =
    | NoReply
    | VersionReply(out: Relay)
    | Simple(reply: Message, out: Relay)
    | Connect(reply: Message, out: Relay)

  /** `remote`: the remote socket has been created. The counters are history. */
  datatype Server = Server(phase: Phase, relay: Relay, request: Option<Message>, tfoPayload: nat,
                           remote: bool, auth: AuthState, reply: ReplyState,
                           authDones: nat, opReplies: nat)

  const NEW_SERVER := Server(ReadingReq, Relay(Receiving, EMPTY_BUF, true, false, Running, []), None, 0,
                            false, NoAuth, NoReply, 0, 0)

  function SrvCtl(s: Server, ctl: Ctl): Server { s.(relay := Settle(s.relay, ctl)) }

  function SrvWake(s: Server): Server { s.(relay := Wake(s.relay)) }

  /** A downstreamer right after its constructor and `start`. */
  function Loaded(bytes: seq<byte>, srcOpen: bool): Relay {
    Start(Relay(Receiving, Buf(0, bytes), srcOpen, true, Running, []))
  }

  function SimpleMessage(code: byte): Message { Message(code, Ipv4, 0, []) }

  function AnswerSimple(s: Server, code: byte): Server {
    var m := SimpleMessage(code);
    s.(phase := Answered, relay := s.relay.(ctl := Idle), reply := Simple(m, Loaded(Pack(m), false)),
       opReplies := s.opReplies + 1)
  }

  /** A read in S_READING_REQ; `a` is the reply `authenticate` will give. */
  function SrvReadReq(s: Server, o: RecvOutcome, a: Message): Server {
    match SockRecv(s.relay.buf, o)
    case Resched(dir) => SrvCtl(s, Armed(Src, dir))
    case Fault => SrvCtl(s, Dead)
    case Bytes(n, b) => if n == 0 then SrvCtl(s, Idle) else SrvParseReq(s.(relay := s.relay.(buf := b)), a)
  }

  function SrvParseReq(s: Server, a: Message): Server {
    match Parse(s.relay.buf.data)
    case EndOfBuffer => SrvCtl(s, Armed(Src, In))
    case BadVersion => s.(relay := s.relay.(ctl := Idle), reply := VersionReply(Loaded([SOCKS6_VERSION], false)))
    case Parsed(m, n) =>
      s.(phase := AwaitingAuth, relay := s.relay.(buf := s.relay.buf.Unuse(n), ctl := Idle),
         request := Some(m), auth := Auth(a, Buf(0, Pack(a)), Running, []))
    case Malformed => SrvCtl(s, Dead)
  }

  function AuthWake(s: Server): Server {
    if s.auth.Auth? && s.auth.ctl.Armed? then s.(auth := s.auth.(ctl := Running, acts := s.auth.acts + [Fired])) else s
  }

  /** The AuthServer asks for an event; if it was deactivated, the poller ignores it. */
  function AuthAsk(s: Server, dir: Dir): Server
    requires s.auth.Auth?
  {
    s.(auth := s.auth.(ctl := if s.auth.ctl.Dead? then Dead else Armed(Sock, dir), acts := s.auth.acts + [Add(Sock, dir)]))
  }

  /** `AuthServer::deactivate`. */
  function AuthKill(s: Server): Server
    requires s.auth.Auth?
  {
    SrvCtl(s.(auth := s.auth.(ctl := Dead, acts := s.auth.acts + [Quit])), Dead)
  }

  /** `AuthServer::sendReply`, including the missing return after a zero-byte send. */
  function AuthSend(s: Server, w: SendOutcome): Server
    requires s.auth.Auth?
  {
    match SockSend(s.auth.buf, w)
    case Resched(dir) => AuthAsk(s, dir)
    case Fault => AuthKill(s)
    case Bytes(n, b) =>
      var sent := s.(auth := s.auth.(buf := b));
      AfterAuthSend(if n == 0 then AuthKill(sent) else sent)
  }

  function AfterAuthSend(s: Server): Server
    requires s.auth.Auth?
  {
    if s.auth.buf.Used() > 0 then AuthAsk(s, Out)
    else if s.auth.reply.code == AUTH_SUCCESS then AuthDone(s.(auth := s.auth.(ctl := Idle)))
    else SrvCtl(s.(auth := s.auth.(ctl := Idle)), Dead)
  }

  /** `authDone`: address fix-up and the switch of `honorRequest`. */
  function AuthDone(s: Server): Server {
    var s := s.(authDones := s.authDones + 1);
    if s.request.None? then s
    else if s.request.value.kind == Domain then AnswerSimple(s, OP_ADDR_NOT_SUPPORTED)
    else if s.request.value.code == REQUEST_CONNECT then s.(phase := Honoring, relay := s.relay.(ctl := Running))
    else if s.request.value.code == REQUEST_NOOP then AnswerSimple(s, OP_SUCCESS)
    else AnswerSimple(s, OP_CMD_NOT_SUPPORTED)
  }

  /** `socket()` in `honorConnect`. */
  function SrvSocket(s: Server, ok: bool): Server {
    if !ok || s.request.None? then AnswerSimple(s, OP_FAILURE)
    else s.(phase := ReadingTfo(true), relay := s.relay.(dstOpen := true), remote := true,
            tfoPayload := Min(s.request.value.tfo, MSS))
  }

  /** S_READING_TFO_PAYLOAD: reads unless enough is buffered already. An exception raised while
      still inside `honorRequest` becomes a FAILURE reply, "not here yet" included. */
  function SrvTfo(s: Server, o: RecvOutcome): Server {
    if s.relay.buf.Used() >= s.tfoPayload then s.(phase := ConnectCall)
    else
      match SockRecv(s.relay.buf, o)
      case Resched(dir) =>
        if s.phase == ReadingTfo(true) then AnswerSimple(s, OP_FAILURE) else SrvCtl(s, Armed(Src, dir))
      case Fault =>
        if s.phase == ReadingTfo(true) then AnswerSimple(s, OP_FAILURE) else SrvCtl(s, Dead)
      case Bytes(n, b) =>
        if n == 0 then SrvCtl(s, Idle)
        else TfoBuffered(s.(relay := s.relay.(buf := b)))
  }

  function TfoBuffered(s: Server): Server {
    if s.relay.buf.Used() < s.tfoPayload then s.(phase := ReadingTfo(false), relay := Settle(s.relay, Armed(Src, In)))
    else s.(phase := ConnectCall)
  }

  function SrvConnect(s: Server, o: ConnectOutcome): Server {
    if o.ConnectFailed? then AnswerSimple(s, OP_FAILURE)
    else s.(phase := AwaitingConnect,
            relay := Settle(s.relay.(buf := TfoRest(s.relay.buf, o, s.tfoPayload)), Armed(Dst, Out)))
  }

  /** S_CONNECTING: `code` is the connect result, `bind` the reply with the bound address;
      `ok` is false when keep-alive or `getsockname` throws. */
  function SrvConnected(s: Server, code: byte, ok: bool, bind: Message): Server {
    if code != OP_SUCCESS then AnswerSimple(s, code)
    else if !ok then SrvCtl(s, Dead)
    else
      var m := bind.(code := OP_SUCCESS);
      s.(phase := Relaying, reply := Connect(m, Loaded(Pack(m), true)), opReplies := s.opReplies + 1,
         relay := s.relay.(mode := if s.relay.buf.Used() > 0 then Sending else Receiving))
  }

  /** A whole call of `ProxyUpstreamer::process` from an event: `r` answers the first read,
      `o` the connect, `code`, `ok` and `bind` describe a finished connect, and `rr` and `w`
      answer the relay. */
  datatype SrvIo = SrvIo(r: RecvOutcome, auth: Message, o: ConnectOutcome, code: byte, ok: bool, bind: Message,
                         rr: RecvOutcome, w: SendOutcome)

  function SrvTfoThenConnect(s: Server, io: SrvIo): Server {
    var mid := SrvTfo(s, io.r);
    if mid.phase.ConnectCall? && mid.relay.ctl.Running? then SrvConnect(mid, io.o) else mid
  }

  function SrvProcess(s: Server, io: SrvIo): Server {
    match s.phase
    case ReadingReq => SrvReadReq(s, io.r, io.auth)
    case ReadingTfo(_) => SrvTfoThenConnect(s, io)
    case AwaitingConnect =>
      var mid := SrvConnected(s, io.code, io.ok, io.bind);
      if mid.phase.Relaying? && mid.relay.ctl.Running? then mid.(relay := Process(mid.relay, io.rr, io.w)) else mid
    case Relaying => s.(relay := Process(s.relay, io.rr, io.w))
    case _ => s
  }

  /** What those calls write to the remote. */
  function SrvTfoPuts(s: Server, io: SrvIo): seq<byte> {
    var mid := SrvTfo(s, io.r);
    if mid.phase.ConnectCall? && mid.relay.ctl.Running?
    then mid.relay.buf.data[..TfoCount(mid.relay.buf, io.o, mid.tfoPayload)] else []
  }

  function SrvProcessPuts(s: Server, io: SrvIo): seq<byte> {
    match s.phase
    case ReadingTfo(_) => SrvTfoPuts(s, io)
    case AwaitingConnect =>
      var mid := SrvConnected(s, io.code, io.ok, io.bind);
      if mid.phase.Relaying? && mid.relay.ctl.Running? then ProcessPuts(mid.relay, io.rr, io.w) else []
    case Relaying => ProcessPuts(s.relay, io.rr, io.w)
    case _ => []
  }

  function SrvHonorPuts(s: Server, socketOk: bool, io: SrvIo): seq<byte> {
    var mid := SrvSocket(s, socketOk);
    if mid.phase.ReadingTfo? then SrvTfoPuts(mid, io) else []
  }

  /** A whole call of `AuthServer::process`: if the reply is out and was a success, the
      upstreamer goes on to the socket, the TFO payload and the connect in the same event. */
  function AuthProcess(s: Server, w: SendOutcome, socketOk: bool, io: SrvIo): Server
    requires s.auth.Auth?
  {
    var mid := AuthSend(s, w);
    if mid.phase.Honoring? then SrvHonorConnect(mid, socketOk, io) else mid
  }

  /** `honorConnect`. */
  function SrvHonorConnect(s: Server, socketOk: bool, io: SrvIo): Server {
    var mid := SrvSocket(s, socketOk);
    if mid.phase.ReadingTfo? then SrvTfoThenConnect(mid, io) else mid
  }

  lemma HonoringIsSilent(s: Server, w: SendOutcome)
    requires s.auth.Auth? && s.reply.NoReply? && s.phase.AwaitingAuth?
    ensures AuthSend(s, w).phase.Honoring? ==> AuthSend(s, w).reply.NoReply?
  {
    hide Loaded;
  }

  lemma TfoNothing(b: Buf, o: ConnectOutcome, max: nat)
    requires o.ConnectFailed?
    ensures TfoCount(b, o, max) == 0
  {
  }

  /** What kind of downstreamer has been assigned. */
  datatype ReplyKind = Silent | Version | OneShot(reply: Message) | Tunnelled(reply: Message)

  class AuthServer {
    const buf: StreamBuffer
    const reply: Message
    var ctl: Ctl
    var acts: seq<Action>

    ghost const Repr: set<object>

    ghost predicate Valid()
      reads this, buf
    {
      Repr == {this, buf, buf.buf} && buf.Valid()
    }

    ghost function View(): AuthState
      requires Valid()
      reads this, buf, buf.buf
    {
      Auth(reply, buf.View(), ctl, acts)
    }

    constructor (reply: Message)
      requires |Pack(reply)| <= HEADROOM
      ensures Valid() && fresh(Repr) && View() == Auth(reply, Buf(0, Pack(reply)), Running, [])
    {
      var b := new StreamBuffer();
      b.Fill(Pack(reply));
      buf, this.reply, ctl, acts := b, reply, Running, [];
      Repr := {this, b, b.buf};
      new;
      assert buf.View().data == Pack(reply);
    }

    method Ask(dir: Dir)
      requires Valid()
      modifies this`ctl, this`acts
      ensures Valid() && buf.View() == old(buf.View()) && acts == old(acts) + [Add(Sock, dir)]
      ensures ctl == if old(ctl).Dead? then Dead else Armed(Sock, dir)
    {
      acts := acts + [Add(Sock, dir)];
      if !ctl.Dead? {
        ctl := Armed(Sock, dir);
      }
    }
  }

  ghost function AuthOf(a: AuthServer?): AuthState
    requires a != null ==> a.Valid()
    reads a, if a == null then {} else {a.buf, a.buf.buf}
  {
    if a == null then NoAuth else a.View()
  }

  ghost function ReplyOf(kind: ReplyKind, d: StreamReactor?): ReplyState
    requires (kind.Silent? <==> d == null) && (d != null ==> d.Valid())
    reads d, if d == null then {} else {d.buf, d.buf.buf}
  {
    if d == null then NoReply else ReplyWith(kind, d.View())
  }

  function ReplyWith(kind: ReplyKind, out: Relay): ReplyState {
    match kind
    case Silent => NoReply
    case Version => VersionReply(out)
    case OneShot(m) => Simple(m, out)
    case Tunnelled(m) => Connect(m, out)
  }

  class ProxyUpstreamer {
    const stream: StreamReactor
    var state: Phase
    var request: Option<Message>
    var tfoPayload: nat
    var remote: bool
    var authServer: AuthServer?
    var downstreamer: StreamReactor?
    var kind: ReplyKind
    var authDones: nat
    var opReplies: nat

    ghost function Repr(): set<object>
      reads this, stream, authServer, downstreamer
    {
      {this} + stream.Repr + (if authServer == null then {} else authServer.Repr)
      + (if downstreamer == null then {} else downstreamer.Repr)
    }

    ghost predicate Valid()
      reads this, stream, stream.buf, authServer, if authServer == null then {} else {authServer.buf}
      reads downstreamer, if downstreamer == null then {} else {downstreamer.buf}
    {
      && stream.Valid() && this !in stream.Repr
      && (authServer != null ==> authServer.Valid() && this !in authServer.Repr && authServer.Repr !! stream.Repr)
      && (downstreamer != null ==> downstreamer.Valid() && this !in downstreamer.Repr && downstreamer.Repr !! stream.Repr)
      && (authServer != null && downstreamer != null ==> authServer.Repr !! downstreamer.Repr)
      && (kind.Silent? <==> downstreamer == null)
    }

    ghost function View(): Server
      requires Valid()
      reads this, stream, stream.buf, stream.buf.buf, authServer, downstreamer
      reads if authServer == null then {} else {authServer.buf, authServer.buf.buf}
      reads if downstreamer == null then {} else {downstreamer.buf, downstreamer.buf.buf}
    {
      Server(state, stream.View(), request, tfoPayload, remote, AuthOf(authServer), ReplyOf(kind, downstreamer), authDones, opReplies)
    }

    constructor ()
      ensures Valid() && View() == NEW_SERVER
    {
      stream := new StreamReactor(true, false);
      state, request, tfoPayload, remote := ReadingReq, None, 0, false;
      authServer, downstreamer, kind := null, null, Silent;
      authDones, opReplies := 0, 0;
    }

    /** Construction and `start` of a downstreamer loaded with `bytes`. */
    method Load(bytes: seq<byte>, srcOpen: bool) returns (d: StreamReactor)
      requires 0 < |bytes| <= HEADROOM
      ensures d.Valid() && fresh(d.Repr) && d.View() == Loaded(bytes, srcOpen)
    {
      d := new StreamReactor(srcOpen, true);
      d.buf.Fill(bytes);
      assert d.buf.View().data == bytes;
      d.Begin();
    }

    /** `poller->assign(new ...)`: the downstreamer is made, loaded and started. */
    method Assign(bytes: seq<byte>, srcOpen: bool, k: ReplyKind, next: Phase, replies: nat)
      requires Valid() && kind.Silent? && !k.Silent? && 0 < |bytes| <= HEADROOM
      modifies this`downstreamer, this`kind, this`state, this`opReplies
      ensures Valid() && kind == k && fresh(Repr() - old(Repr()))
      ensures View() == old(View()).(phase := next, reply := ReplyWith(k, Loaded(bytes, srcOpen)), opReplies := replies)
    {
      var d := Load(bytes, srcOpen);
      downstreamer, kind, state, opReplies := d, k, next, replies;
    }

    method Answer(code: byte)
      requires Valid() && kind.Silent?
      modifies this`downstreamer, this`kind, this`state, this`opReplies, stream`ctl
      ensures Valid() && View() == AnswerSimple(old(View()), code)
      ensures fresh(Repr() - old(Repr()))
    {
      var m := SimpleMessage(code);
      Assign(Pack(m), false, OneShot(m), Answered, opReplies + 1);
      stream.ctl := Idle;
    }

    /** `srcSock.sockRecv(&buf)`. */
    method ReceiveFromClient(o: RecvOutcome) returns (c: SockCode)
      requires Valid()
      modifies stream.buf, stream.buf.buf
      ensures Valid()
      ensures var was := old(View());
              var io := SockRecv(was.relay.buf, o);
              c == Code(io) && View() == if io.Bytes? then was.(relay := was.relay.(buf := io.buf)) else was
    {
      c := stream.Receive(o);
    }

    /** S_READING_REQ. */
    method ReadRequest(o: RecvOutcome, reply: Message)
      requires Valid() && state.ReadingReq? && kind.Silent? && authServer == null && |Pack(reply)| <= HEADROOM
      modifies this, stream.Repr
      ensures Valid() && View() == SrvReadReq(old(View()), o, reply)
    {
      var c := ReceiveFromClient(o);
      match c
      case WouldBlock(dir) => stream.SetCtl(Armed(Src, dir));
      case Threw => stream.SetCtl(Dead);
      case Count(n) =>
        if n == 0 {
          stream.ctl := Idle;
          return;
        }
        ParseRequest(reply);
    }

    method Authenticate(reply: Message)
      requires Valid() && kind.Silent? && authServer == null && |Pack(reply)| <= HEADROOM
      modifies this`authServer
      ensures Valid() && kind.Silent?
      ensures View() == old(View()).(auth := Auth(reply, Buf(0, Pack(reply)), Running, []))
    {
      var server := new AuthServer(reply);
      authServer := server;
      assert stream.View() == old(stream.View());
    }

    method TakeRequest(m: Message, n: nat)
      requires Valid() && kind.Silent? && authServer == null && n <= stream.buf.View().Used()
      modifies this`request, this`state, stream.buf, stream`ctl
      ensures Valid()
      ensures var was := old(View());
              View() == was.(phase := AwaitingAuth, request := Some(m),
                             relay := was.relay.(buf := was.relay.buf.Unuse(n), ctl := Idle))
    {
      ghost var relay := stream.View().(buf := stream.View().buf.Unuse(n), ctl := Idle);
      ghost var after := View().(phase := AwaitingAuth, request := Some(m), relay := relay);
      stream.buf.Unuse(n);
      stream.ctl := Idle;
      request, state := Some(m), AwaitingAuth;
      assert stream.View() == relay;
      assert AuthOf(authServer) == NoAuth == after.auth && ReplyOf(kind, downstreamer) == NoReply == after.reply;
      assert View() == after;
    }

    /** The request is complete: it leaves the buffer and the AuthServer takes over. */
    method Accept(m: Message, n: nat, reply: Message)
      requires Valid() && kind.Silent? && authServer == null && |Pack(reply)| <= HEADROOM && n <= stream.buf.View().Used()
      modifies this, stream.Repr
      ensures Valid()
      ensures var was := old(View());
              View() == was.(phase := AwaitingAuth, relay := was.relay.(buf := was.relay.buf.Unuse(n), ctl := Idle),
                             request := Some(m), auth := Auth(reply, Buf(0, Pack(reply)), Running, []))
    {
      TakeRequest(m, n);
      Authenticate(reply);
    }

    /** Wrong protocol version: only our own version number is sent back. */
    method RejectVersion()
      requires Valid() && kind.Silent?
      modifies this, stream
      ensures Valid()
      ensures var was := old(View());
              View() == was.(relay := was.relay.(ctl := Idle), reply := VersionReply(Loaded([SOCKS6_VERSION], false)))
    {
      Assign([SOCKS6_VERSION], false, Version, state, opReplies);
      stream.ctl := Idle;
    }

    method ParseRequest(reply: Message)
      requires Valid() && state.ReadingReq? && kind.Silent? && authServer == null && |Pack(reply)| <= HEADROOM
      modifies this, stream.Repr
      ensures Valid() && View() == SrvParseReq(old(View()), reply)
    {
      var used := stream.buf.UsedSize();
      var data := stream.buf.Peek(used);
      assert data == View().relay.buf.data;
      match Parse(data)
      case EndOfBuffer => stream.SetCtl(Armed(Src, In));
      case BadVersion => RejectVersion();
      case Malformed => stream.SetCtl(Dead);
      case Parsed(m, n) => Accept(m, n, reply);
    }

    /** `AuthServer::sendReply`, with what follows from it for the upstreamer. */
    method SendAuthReply(w: SendOutcome) returns (sent: seq<byte>)
      requires Valid() && authServer != null && kind.Silent?
      modifies this, stream.Repr, authServer.Repr
      ensures Valid() && View() == AuthSend(old(View()), w)
      ensures sent == Puts(old(View()).auth.buf, w)
    {
      var c;
      c, sent := Transmit(w);
      match c
      case WouldBlock(dir) => authServer.Ask(dir);
      case Threw => Deactivate();
      case Count(n) =>
        if n == 0 {
          Deactivate();
        }
        Continue();
    }

    method Transmit(w: SendOutcome) returns (c: SockCode, sent: seq<byte>)
      requires Valid() && authServer != null
      modifies authServer.buf, authServer.buf.buf
      ensures Valid() && sent == Puts(old(View()).auth.buf, w)
      ensures var io := SockSend(old(View()).auth.buf, w);
              && c == Code(io)
              && View() == if io.Bytes? then old(View()).(auth := old(View()).auth.(buf := io.buf)) else old(View())
    {
      sent := [];
      match w
      case Accepted(n) =>
        var used := authServer.buf.UsedSize();
        var k := Min(n, used);
        sent := authServer.buf.Peek(k);
        authServer.buf.Unuse(k);
        c := Count(k);
      case SendAgain(dir) => c := WouldBlock(dir);
      case SendBroken => c := Count(0);
      case SendFailed => c := Threw;
    }

    method Deactivate()
      requires Valid() && authServer != null
      modifies authServer`ctl, authServer`acts, stream`ctl, stream`acts
      ensures Valid() && View() == AuthKill(old(View()))
    {
      authServer.ctl, authServer.acts := Dead, authServer.acts + [Quit];
      stream.SetCtl(Dead);
    }

    /** The rest of `sendReply` after a send that did not throw. */
    method Continue()
      requires Valid() && authServer != null && kind.Silent?
      modifies this, stream, authServer`ctl, authServer`acts
      ensures Valid() && View() == AfterAuthSend(old(View()))
    {
      var used := authServer.buf.UsedSize();
      if used > 0 {
        authServer.Ask(Out);
      } else if authServer.reply.code == AUTH_SUCCESS {
        authServer.ctl := Idle;
        Honor();
      } else {
        authServer.ctl := Idle;
        stream.SetCtl(Dead);
      }
    }

    /** `authDone`: address fix-up and dispatch on the command. */
    method Honor()
      requires Valid() && kind.Silent?
      modifies this, stream
      ensures Valid() && View() == AuthDone(old(View()))
    {
      hide AnswerSimple;
      authDones := authDones + 1;
      if request.None? {
        return;
      }
      var m := request.value;
      if m.kind != Domain && m.code == REQUEST_CONNECT {
        state := Honoring;
        stream.ctl := Running;
      } else {
        Answer(if m.kind == Domain then OP_ADDR_NOT_SUPPORTED
               else if m.code == REQUEST_NOOP then OP_SUCCESS else OP_CMD_NOT_SUPPORTED);
      }
    }

    method MakeSocket(ok: bool)
      requires Valid() && kind.Silent?
      modifies this, stream
      ensures Valid() && View() == SrvSocket(old(View()), ok)
    {
      hide AnswerSimple;
      if !ok || request.None? {
        Answer(OP_FAILURE);
        return;
      }
      remote, state := true, ReadingTfo(true);
      tfoPayload := Min(request.value.tfo, MSS);
      stream.dstOpen := true;
    }

    /** S_READING_TFO_PAYLOAD, up to the connect. */
    method ReadTfoPayload(o: RecvOutcome)
      requires Valid() && kind.Silent? && state.ReadingTfo?
      modifies this, stream.Repr
      ensures Valid() && View() == SrvTfo(old(View()), o)
    {
      var used := stream.buf.UsedSize();
      if used >= tfoPayload {
        state := ConnectCall;
      } else {
        ReceiveTfo(o);
      }
    }

    method ReceiveTfo(o: RecvOutcome)
      requires Valid() && kind.Silent? && state.ReadingTfo? && stream.buf.View().Used() < tfoPayload
      modifies this, stream.Repr
      ensures Valid() && View() == SrvTfo(old(View()), o)
    {
      hide AnswerSimple, TfoBuffered;
      var c := ReceiveFromClient(o);
      match c
      case WouldBlock(dir) => Interrupted(Armed(Src, dir));
      case Threw => Interrupted(Dead);
      case Count(n) =>
        if n == 0 {
          stream.ctl := Idle;
          return;
        }
        TfoArrived();
    }

    /** Some of the payload has come: wait for the rest or go on. */
    method TfoArrived()
      requires Valid()
      modifies this`state, stream`ctl, stream`acts
      ensures Valid() && View() == TfoBuffered(old(View()))
    {
      var used := stream.buf.UsedSize();
      if used < tfoPayload {
        state := ReadingTfo(false);
        stream.SetCtl(Armed(Src, In));
      } else {
        state := ConnectCall;
      }
    }

    /** An exception: `honorRequest` answers FAILURE to any of them, `runAs` does otherwise. */
    method Interrupted(otherwise: Ctl)
      requires Valid() && kind.Silent?
      modifies this, stream
      ensures Valid()
      ensures View() == if old(state) == ReadingTfo(true) then AnswerSimple(old(View()), OP_FAILURE) else SrvCtl(old(View()), otherwise)
    {
      if state == ReadingTfo(true) {
        Answer(OP_FAILURE);
      } else {
        stream.SetCtl(otherwise);
      }
    }

    method SockConnect(o: ConnectOutcome) returns (sent: seq<byte>)
      requires Valid() && kind.Silent?
      modifies this, stream.Repr
      ensures Valid() && View() == SrvConnect(old(View()), o)
      ensures sent == old(View()).relay.buf.data[..TfoCount(old(View()).relay.buf, o, old(tfoPayload))]
    {
      hide AnswerSimple, TfoRest, TfoCount;
      sent := [];
      if o.ConnectFailed? {
        assert TfoCount(stream.buf.View(), o, tfoPayload) == 0 by { TfoNothing(stream.buf.View(), o, tfoPayload); }
        Answer(OP_FAILURE);
        return;
      }
      sent := SendWithSyn(o);
      state := AwaitingConnect;
      stream.SetCtl(Armed(Dst, Out));
    }

    /** What `sendto` with MSG_FASTOPEN takes of the buffer. */
    method SendWithSyn(o: ConnectOutcome) returns (sent: seq<byte>)
      requires Valid() && kind.Silent? && !o.ConnectFailed?
      modifies stream.buf
      ensures Valid() && sent == old(View()).relay.buf.data[..TfoCount(old(View()).relay.buf, o, tfoPayload)]
      ensures var was := old(View());
              View() == was.(relay := was.relay.(buf := TfoRest(was.relay.buf, o, tfoPayload)))
    {
      sent := [];
      if tfoPayload > 0 && o.FastOpened? {
        var used := stream.buf.UsedSize();
        var n := Min(o.n, Min(used, tfoPayload));
        sent := stream.buf.Peek(n);
        if n > 0 {
          stream.buf.Unuse(n);
        }
      }
    }

    /** S_CONNECTING, up to the relay. */
    method FinishConnect(code: byte, ok: bool, bind: Message)
      requires Valid() && kind.Silent? && |Pack(bind)| <= HEADROOM
      modifies this, stream
      ensures Valid() && View() == SrvConnected(old(View()), code, ok, bind)
    {
      hide AnswerSimple;
      if code != OP_SUCCESS {
        Answer(code);
      } else if !ok {
        stream.SetCtl(Dead);
      } else {
        BeginRelay(bind.(code := OP_SUCCESS));
      }
    }

    /** The ConnectProxyDownstreamer starts with the reply in its buffer; our half relays. */
    method BeginRelay(m: Message)
      requires Valid() && kind.Silent? && |Pack(m)| <= HEADROOM
      modifies this, stream`streamState
      ensures Valid()
      ensures var was := old(View());
              View() == was.(phase := Relaying, reply := Connect(m, Loaded(Pack(m), true)), opReplies := was.opReplies + 1,
                             relay := was.relay.(mode := if was.relay.buf.Used() > 0 then Sending else Receiving))
    {
      hide Pack;
      Assign(Pack(m), true, Tunnelled(m), Relaying, opReplies + 1);
      var used := stream.buf.UsedSize();
      stream.streamState := if used > 0 then Sending else Receiving;
    }

    /** `ProxyUpstreamer::process` on an event; `sent` goes to the remote. */
    method Process(io: SrvIo) returns (sent: seq<byte>)
      requires Valid() && stream.ctl.Running? && |Pack(io.auth)| <= HEADROOM && |Pack(io.bind)| <= HEADROOM
      requires state.Relaying? || kind.Silent?
      requires state.ReadingReq? ==> authServer == null
      modifies this, stream.Repr
      ensures Valid() && View() == SrvProcess(old(View()), io) && sent == SrvProcessPuts(old(View()), io)
    {
      sent := [];
      match state
      case ReadingReq => ReadRequest(io.r, io.auth);
      case ReadingTfo(_) => sent := TfoThenConnect(io);
      case AwaitingConnect =>
        FinishConnect(io.code, io.ok, io.bind);
        if state.Relaying? && stream.ctl.Running? {
          sent := Relay(io);
        }
      case Relaying => sent := Relay(io);
      case _ =>
    }

    method Relay(io: SrvIo) returns (sent: seq<byte>)
      requires Valid() && stream.ctl.Running?
      modifies stream.Repr
      ensures Valid() && View() == old(View()).(relay := Relays.Process(old(View()).relay, io.rr, io.w))
      ensures sent == ProcessPuts(old(View()).relay, io.rr, io.w)
    {
      sent := stream.Step(io.rr, io.w);
    }

    method TfoThenConnect(io: SrvIo) returns (sent: seq<byte>)
      requires Valid() && kind.Silent? && state.ReadingTfo?
      modifies this, stream.Repr
      ensures Valid() && View() == SrvTfoThenConnect(old(View()), io) && sent == SrvTfoPuts(old(View()), io)
    {
      sent := [];
      ReadTfoPayload(io.r);
      if state.ConnectCall? && stream.ctl.Running? {
        assert View().reply.NoReply?;
        sent := SockConnect(io.o);
      }
    }

    /** `AuthServer::process` on an event; `sent` goes to the client, `onward` to the remote. */
    method AuthEvent(w: SendOutcome, socketOk: bool, io: SrvIo) returns (sent: seq<byte>, onward: seq<byte>)
      requires Valid() && authServer != null && kind.Silent? && state.AwaitingAuth?
      modifies this, stream.Repr, authServer.Repr
      ensures Valid() && View() == AuthProcess(old(View()), w, socketOk, io)
      ensures sent == Puts(old(View()).auth.buf, w)
      ensures var mid := AuthSend(old(View()), w);
              onward == if mid.phase.Honoring? then SrvHonorPuts(mid, socketOk, io) else []
    {
      hide AuthSend, SrvHonorConnect, SrvHonorPuts;
      onward := [];
      HonoringIsSilent(View(), w);
      sent := SendAuthReply(w);
      if state.Honoring? {
        assert View().reply.NoReply?;
        onward := HonorConnect(socketOk, io);
      }
    }

    method HonorConnect(socketOk: bool, io: SrvIo) returns (sent: seq<byte>)
      requires Valid() && kind.Silent? && state.Honoring?
      modifies this, stream.Repr
      ensures Valid() && View() == SrvHonorConnect(old(View()), socketOk, io)
      ensures sent == SrvHonorPuts(old(View()), socketOk, io)
    {
      sent := [];
      MakeSocket(socketOk);
      if state.ReadingTfo? {
        sent := TfoThenConnect(io);
      }
    }
  }
}
