/** The reactors keep the discipline the event loop depends on: in every run of a tunnel, and of
    the proxy facing any client, every reactor's log asks for no event while another is due and
    closes nothing that it has not removed from the poller. */
module Discipline {
  import opened Wrappers
  import opened Codec
  import opened Buffers
  import opened Logs
  import opened Relays
  import opened ProxifierReactors
  import opened ProxyReactors
  import opened ProxyWorlds
  import opened Tunnels
  import Dispatcher

  // ----- one relay -----

  /** What a log says between two system calls: inside a call nothing is asked for yet, and a
      reactor that waits does so on the descriptor it asked for last. */
  ghost predicate Kept(acts: seq<Action>, ctl: Ctl) {
    var m := Judged(acts);
    && m.ok && OwnOnly(acts)
    && (ctl.Running? ==> m.armed.None?)
    && (ctl.Armed? ==> m.armed == Some(ctl.side))
  }

  ghost predicate Tidy(s: Relay) { Kept(s.acts, s.ctl) }

  /** From one log to a longer one, nothing asked for while the call goes on, and one event at
      most when it is over. */
  ghost predicate Within(acts: seq<Action>, more: seq<Action>, ctl: Ctl) {
    && acts <= more
    && Adds(more) <= Adds(acts) + if ctl.Running? then 0 else 1
  }

  /** A piece of a call, from `s` to `q`. */
  ghost predicate Orderly(s: Relay, q: Relay) { Tidy(q) && Within(s.acts, q.acts, q.ctl) }

  lemma OrderlyThen(s: Relay, m: Relay, q: Relay)
    requires Orderly(s, m) && m.ctl.Running? && Orderly(m, q)
    ensures Orderly(s, q)
  {
  }

  lemma SettleOrderly(s: Relay, ctl: Ctl)
    requires Tidy(s) && s.ctl.Running? && (ctl.Armed? ==> !ctl.side.Raw?)
    ensures Orderly(s, Settle(s, ctl))
  {
    hide Judged, Adds;
    match ctl
    case Armed(side, dir) => JudgedNext(s.acts, Add(side, dir));
    case Dead => JudgedNext(s.acts, Quit);
    case _ =>
  }

  /** Anybody may deactivate a reactor at any time. */
  lemma QuitTidy(s: Relay)
    requires Tidy(s)
    ensures Tidy(Settle(s, Dead))
  {
    hide Judged, Adds;
    QuitObeys(s.acts);
  }

  lemma AskSrcOrderly(s: Relay)
    requires Tidy(s) && s.ctl.Running?
    ensures Orderly(s, AskSrc(s))
  {
    hide Judged, Adds;
    JudgedNext(s.acts, Add(Src, In));
  }

  lemma DropSrcOrderly(s: Relay)
    requires Tidy(s) && s.ctl.Running?
    ensures Orderly(s, DropSrc(s))
  {
    hide Judged, Adds;
    JudgedNext(s.acts, Remove(Src));
    JudgedNext(s.acts + [Remove(Src)], Reset(Src));
  }

  lemma DropBothOrderly(s: Relay)
    requires Tidy(s) && s.ctl.Running?
    ensures Orderly(s, DropBoth(s))
  {
    hide Judged, Adds;
    DropSrcOrderly(s);
    var m := DropSrc(s);
    JudgedNext(m.acts, Remove(Dst));
    JudgedNext(m.acts + [Remove(Dst)], Reset(Dst));
  }

  lemma RecvOrderly(s: Relay, o: RecvOutcome)
    requires Tidy(s) && s.ctl.Running?
    ensures Orderly(s, RecvStep(s, o))
  {
    hide Judged, Adds;
    match SockRecv(s.buf, o)
    case Resched(dir) => SettleOrderly(s, Armed(Src, dir));
    case Fault => SettleOrderly(s, Dead);
    case Bytes(n, b) =>
      DropSrcOrderly(s.(buf := b, mode := Sending));
      DropBothOrderly(s.(buf := b));
  }

  lemma SendOrderly(s: Relay, o: SendOutcome)
    requires Tidy(s) && s.ctl.Running?
    ensures Orderly(s, SendStep(s, o))
  {
    hide Judged, Adds;
    match SockSend(s.buf, o)
    case Resched(dir) => SettleOrderly(s, Armed(Dst, dir));
    case Fault => SettleOrderly(s, Dead);
    case Bytes(n, b) =>
      if n == 0 {
        DropBothOrderly(s.(buf := b));
      } else if b.Used() == 0 {
        AskSrcOrderly(s.(buf := b, mode := Receiving));
      } else {
        SettleOrderly(s.(buf := b), Armed(Dst, Out));
      }
  }

  lemma ProcessOrderly(s: Relay, r: RecvOutcome, w: SendOutcome)
    requires Tidy(s) && s.ctl.Running?
    ensures Orderly(s, Process(s, r, w))
  {
    hide RecvStep, SendStep, Judged, Adds;
    RecvOrderly(s, r);
    var mid := if s.mode.Receiving? then RecvStep(s, r) else s;
    if mid.ctl.Running? {
      SendOrderly(mid, w);
      OrderlyThen(s, mid, SendStep(mid, w));
    }
  }

  lemma StartOrderly(s: Relay)
    requires Tidy(s) && s.ctl.Running?
    ensures Orderly(s, Start(s))
  {
    hide Judged, Adds;
    SettleOrderly(s.(mode := Sending), Armed(Dst, Out));
    AskSrcOrderly(s.(mode := Receiving));
  }

  lemma WakeTidy(s: Relay)
    requires Tidy(s)
    ensures Tidy(Wake(s))
  {
    hide Judged, Adds;
    JudgedNext(s.acts, Fired);
  }

  lemma DestroyedTidy(s: Relay)
    requires Tidy(s) && !Live(s.ctl)
    ensures Tidy(Destroyed(s)) && (Judged(s.acts).armed.None? ==> Judged(Destroyed(s).acts).armed.None?)
  {
    hide Judged, Adds;
    TeardownObeys(s.acts);
  }

  // ----- the proxifier's reactors -----

  lemma UpReadOrderly(s: Upstream, o: RecvOutcome, request: seq<byte>)
    requires Tidy(s.relay) && s.relay.ctl.Running?
    ensures Orderly(s.relay, UpRead(s, o, request).relay)
  {
    hide Judged, Adds;
    SettleOrderly(s.relay, Dead);
    var io := SockRecv(s.relay.buf, o);
    if io.Bytes? {
      SettleOrderly(s.relay.(buf := io.buf), Dead);
    }
  }

  lemma UpOpenOrderly(s: Upstream, o: ConnectOutcome, max: nat, early: bool)
    requires Tidy(s.relay) && s.relay.ctl.Running?
    ensures Orderly(s.relay, UpOpen(s, o, max, early).relay)
  {
    hide Start, TfoRest, Judged, Adds;
    SettleOrderly(s.relay, Dead);
    StartOrderly(s.relay);
    StartOrderly(s.relay.(buf := TfoRest(s.relay.buf, o, max)));
  }

  lemma UpCheckOrderly(s: Upstream, failed: bool)
    requires Tidy(s.relay) && s.relay.ctl.Running?
    ensures Orderly(s.relay, UpCheck(s, failed).relay) && Orderly(s.relay, UpSkip(s).relay)
  {
    hide Judged, Adds;
    SettleOrderly(s.relay, Dead);
  }

  lemma UpEarlyOrderly(s: Upstream, w: SendOutcome)
    requires Tidy(s.relay) && s.relay.ctl.Running?
    ensures Orderly(s.relay, UpEarly(s, w).relay)
  {
    hide Judged, Adds;
    match w
    case SendAgain(dir) => SettleOrderly(s.relay, Armed(Dst, dir));
    case SendFailed => SettleOrderly(s.relay, Dead);
    case _ =>
  }

  lemma UpForceOrderly(s: Upstream, o: ForceOutcome)
    requires Tidy(s.relay) && s.relay.ctl.Running?
    ensures Orderly(s.relay, UpForce(s, o).relay)
  {
    hide Judged, Adds;
    match o
    case ForceAgain(dir) => SettleOrderly(s.relay, Armed(Dst, dir));
    case ForceFailed => SettleOrderly(s.relay, Dead);
    case _ =>
  }

  lemma UpRequestOrderly(s: Upstream, w: SendOutcome)
    requires Tidy(s.relay) && s.relay.ctl.Running?
    ensures Orderly(s.relay, UpRequest(s, w).relay)
  {
    hide Judged, Adds;
    if s.relay.buf.Used() > 0 {
      match SockSend(s.relay.buf, w)
      case Resched(dir) => SettleOrderly(s.relay, Armed(Dst, dir));
      case Fault => SettleOrderly(s.relay, Dead);
      case Bytes(_, _) => SettleOrderly(s.relay, Idle);
    }
  }

  lemma UpHandshakeOrderly(s: Upstream, io: UpIo)
    requires Tidy(s.relay) && s.relay.ctl.Running?
    ensures Orderly(s.relay, UpHandshake(s, io).relay)
  {
    hide UpEarly, UpForce, Judged, Adds;
    match s.tls
    case WantEarly =>
      var mid := UpEarly(s, io.early);
      UpEarlyOrderly(s, io.early);
      if mid.relay.ctl.Running? {
        UpForceOrderly(mid, io.force);
        OrderlyThen(s.relay, mid.relay, UpForce(mid, io.force).relay);
      }
    case WantHandshake(_) => UpForceOrderly(s, io.force);
    case _ => UpCheckOrderly(s, false);
  }

  /** A whole call of `ProxifierUpstreamer::process` asks for at most one event, through all the
      states it falls through. */
  lemma UpCallOrderly(s: Upstream, io: UpIo)
    requires Tidy(s.relay) && s.relay.ctl.Running?
    ensures Orderly(s.relay, UpProcess(s, io).relay)
  {
    hide UpCheck, UpHandshake, UpRequest, Process, Tidy, Judged, Adds;
    var s1 := if s.phase.Connecting? then UpCheck(s, io.soError) else s;
    UpCheckOrderly(s, io.soError);
    assert Orderly(s.relay, s1.relay) by { assert Orderly(s.relay, UpSkip(s).relay); }
    var s2 := if s1.relay.ctl.Running? && s1.phase.Handshaking? then UpHandshake(s1, io) else s1;
    if s1.relay.ctl.Running? && s1.phase.Handshaking? {
      UpHandshakeOrderly(s1, io);
      OrderlyThen(s.relay, s1.relay, s2.relay);
    }
    var s3 := if s2.relay.ctl.Running? && s2.phase.SendingReq? then UpRequest(s2, io.request) else s2;
    if s2.relay.ctl.Running? && s2.phase.SendingReq? {
      UpRequestOrderly(s2, io.request);
      OrderlyThen(s.relay, s2.relay, s3.relay);
    }
    if s3.relay.ctl.Running? && s3.phase.Streaming? {
      ProcessOrderly(s3.relay, io.recv, io.send);
      OrderlyThen(s.relay, s3.relay, Process(s3.relay, io.recv, io.send));
    }
  }

  lemma UpStartOrderly(s: Upstream, r: RecvOutcome, request: seq<byte>, o: ConnectOutcome, max: nat, early: bool)
    requires Tidy(s.relay) && s.relay.ctl.Running?
    ensures Orderly(s.relay, UpStart(s, r, request, o, max, early).relay)
  {
    hide UpRead, UpOpen, Judged, Adds;
    var mid := UpRead(s, r, request);
    UpReadOrderly(s, r, request);
    if mid.relay.ctl.Running? {
      UpOpenOrderly(mid, o, max, early);
      OrderlyThen(s.relay, mid.relay, UpOpen(mid, o, max, early).relay);
    }
  }

  lemma NewDownstreamTidy()
    ensures Tidy(NewDownstream().relay) && Adds(NewDownstream().relay.acts) == 1
  {
    var s := Relay(Receiving, EMPTY_BUF, true, true, Running, []);
    StartOrderly(s);
    JudgedNext([], Add(Src, In));
  }

  lemma DownOpOrderly(s: Downstream)
    requires Tidy(s.relay) && s.relay.ctl.Running?
    ensures Orderly(s.relay, DownOp(s).relay)
  {
    hide Judged, Adds;
    match Parse(s.relay.buf.data)
    case EndOfBuffer => SettleOrderly(s.relay, Armed(Src, In));
    case Parsed(_, _) => SettleOrderly(s.relay, Idle);
    case _ => SettleOrderly(s.relay, Dead);
  }

  lemma DownAuthOrderly(s: Downstream)
    requires Tidy(s.relay) && s.relay.ctl.Running?
    ensures Orderly(s.relay, DownAuth(s).relay)
  {
    hide DownOp, Judged, Adds;
    match Parse(s.relay.buf.data)
    case EndOfBuffer => SettleOrderly(s.relay, Armed(Src, In));
    case Parsed(m, n) =>
      SettleOrderly(s.relay, Dead);
      DownOpOrderly(s.(phase := WaitOp, relay := s.relay.(buf := s.relay.buf.Unuse(n))));
    case _ => SettleOrderly(s.relay, Dead);
  }

  lemma DownReadOrderly(s: Downstream, o: RecvOutcome)
    requires Tidy(s.relay) && s.relay.ctl.Running?
    ensures Orderly(s.relay, DownRead(s, o).relay)
  {
    hide DownAuth, DownOp, Judged, Adds;
    match SockRecv(s.relay.buf, o)
    case Resched(dir) => SettleOrderly(s.relay, Armed(Src, dir));
    case Fault => SettleOrderly(s.relay, Dead);
    case Bytes(n, b) =>
      SettleOrderly(s.relay, Dead);
      SettleOrderly(s.relay, Idle);
      DownAuthOrderly(s.(relay := s.relay.(buf := b)));
      DownOpOrderly(s.(relay := s.relay.(buf := b)));
  }

  lemma DownCallOrderly(s: Downstream, first: RecvOutcome, r: RecvOutcome, w: SendOutcome)
    requires Tidy(s.relay) && s.relay.ctl.Running?
    ensures Orderly(s.relay, DownProcess(s, first, r, w).relay)
  {
    hide DownRead, Process, Judged, Adds;
    var mid := if s.phase.DownStream? then s else DownRead(s, first);
    DownReadOrderly(s, first);
    if mid.relay.ctl.Running? && mid.phase.DownStream? {
      ProcessOrderly(mid.relay, r, w);
      OrderlyThen(s.relay, mid.relay, Process(mid.relay, r, w));
    }
  }

  // ----- the proxy's reactors -----

  ghost predicate AuthTidy(s: Server) {
    && (s.phase.ReadingReq? <==> s.auth.NoAuth?)
    && (s.auth.Auth? ==> Kept(s.auth.acts, s.auth.ctl) && (Live(s.auth.ctl) ==> s.phase.AwaitingAuth?))
  }

  /** While the AuthServer is at work, the upstreamer has asked for nothing. */
  ghost predicate ServerTidy(s: Server) {
    && Tidy(s.relay) && AuthTidy(s)
    && (s.phase.AwaitingAuth? ==> Judged(s.relay.acts).armed.None?)
    && (!s.reply.NoReply? ==> Tidy(s.reply.out))
  }

  /** A piece of a call of the upstreamer. */
  ghost predicate ServerOrderly(s: Server, q: Server) { ServerTidy(q) && Within(s.relay.acts, q.relay.acts, q.relay.ctl) }

  lemma ServerOrderlyThen(s: Server, m: Server, q: Server)
    requires ServerOrderly(s, m) && m.relay.ctl.Running? && ServerOrderly(m, q)
    ensures ServerOrderly(s, q)
  {
  }

  lemma LoadedTidy(bytes: seq<byte>, srcOpen: bool)
    ensures Tidy(Loaded(bytes, srcOpen)) && Adds(Loaded(bytes, srcOpen).acts) == 1
  {
    var s := Relay(Receiving, Buf(0, bytes), srcOpen, true, Running, []);
    StartOrderly(s);
    JudgedNext([], Add(Src, In));
    JudgedNext([], Add(Dst, Out));
  }

  lemma AnswerOrderly(s: Server, code: byte)
    requires ServerTidy(s) && s.auth.Auth? && !Live(s.auth.ctl)
    ensures ServerOrderly(s, AnswerSimple(s, code)) && AnswerSimple(s, code).auth == s.auth
    ensures AnswerSimple(s, code).phase.Answered?
  {
    LoadedTidy(Pack(SimpleMessage(code)), false);
    hide Loaded, Pack, Judged, Adds;
  }

  lemma TakenOrderly(s: Server, q: Server)
    requires ServerTidy(s) && s.relay.ctl.Running? && q.reply == s.reply && q.phase.AwaitingAuth?
    requires q.relay.acts == s.relay.acts && q.relay.ctl.Idle? && q.auth.Auth? && q.auth.acts == [] && q.auth.ctl.Running?
    ensures ServerOrderly(s, q)
  {
  }

  lemma ParseReqOrderly(s: Server, a: Message)
    requires ServerTidy(s) && s.relay.ctl.Running? && s.phase.ReadingReq?
    ensures ServerOrderly(s, SrvParseReq(s, a))
  {
    hide Loaded, Pack, Judged, Adds;
    LoadedTidy([SOCKS6_VERSION], false);
    match Parse(s.relay.buf.data)
    case EndOfBuffer => SettleOrderly(s.relay, Armed(Src, In));
    case Malformed => SettleOrderly(s.relay, Dead);
    case Parsed(_, _) => TakenOrderly(s, SrvParseReq(s, a));
    case BadVersion =>
  }

  lemma ReadReqOrderly(s: Server, o: RecvOutcome, a: Message)
    requires ServerTidy(s) && s.relay.ctl.Running? && s.phase.ReadingReq?
    ensures ServerOrderly(s, SrvReadReq(s, o, a))
  {
    hide SrvParseReq, Judged, Adds, Kept;
    match SockRecv(s.relay.buf, o)
    case Resched(dir) => SettleOrderly(s.relay, Armed(Src, dir));
    case Fault => SettleOrderly(s.relay, Dead);
    case Bytes(n, b) =>
      SettleOrderly(s.relay, Idle);
      ParseReqOrderly(s.(relay := s.relay.(buf := b)), a);
  }

  /** What an exchange of the AuthServer may do to both reactors. */
  ghost predicate AuthOrderly(s: Server, q: Server) {
    && s.auth.Auth? && q.auth.Auth? && ServerTidy(q)
    && Within(s.auth.acts, q.auth.acts, q.auth.ctl) && Within(s.relay.acts, q.relay.acts, q.relay.ctl)
  }

  lemma AuthAskOrderly(s: Server, dir: Dir)
    requires s.auth.Auth? && ServerTidy(s) && s.phase.AwaitingAuth? && Judged(s.auth.acts).armed.None?
    ensures AuthOrderly(s, AuthAsk(s, dir))
  {
    hide Judged, Adds;
    JudgedNext(s.auth.acts, Add(Sock, dir));
  }

  lemma AuthKillOrderly(s: Server)
    requires s.auth.Auth? && ServerTidy(s) && s.phase.AwaitingAuth?
    ensures var q := AuthKill(s);
            && AuthOrderly(s, q) && q.phase.AwaitingAuth? && Judged(q.auth.acts).armed.None? && q.auth.buf == s.auth.buf
            && Adds(q.auth.acts) == Adds(s.auth.acts) && Adds(q.relay.acts) == Adds(s.relay.acts)
  {
    hide Judged, Adds;
    QuitObeys(s.auth.acts);
    QuitTidy(s.relay);
    JudgedNext(s.auth.acts, Quit);
    JudgedNext(s.relay.acts, Quit);
  }

  lemma AuthDoneOrderly(s: Server)
    requires s.auth.Auth? && ServerTidy(s) && s.phase.AwaitingAuth? && !Live(s.auth.ctl)
    ensures AuthOrderly(s, AuthDone(s))
  {
    hide AnswerSimple, Judged, Adds, Pack;
    var more := s.(authDones := s.authDones + 1);
    AnswerOrderly(more, OP_ADDR_NOT_SUPPORTED);
    AnswerOrderly(more, OP_SUCCESS);
    AnswerOrderly(more, OP_CMD_NOT_SUPPORTED);
  }

  lemma AfterAuthOrderly(s: Server)
    requires s.auth.Auth? && ServerTidy(s) && s.phase.AwaitingAuth? && Judged(s.auth.acts).armed.None?
    ensures AuthOrderly(s, AfterAuthSend(s))
  {
    hide AuthDone, AuthAsk, Judged, Adds, OwnOnly;
    if s.auth.buf.Used() > 0 {
      AuthAskOrderly(s, Out);
    } else {
      var idle := s.(auth := s.auth.(ctl := Idle));
      AuthDoneOrderly(idle);
      QuitTidy(s.relay);
      JudgedNext(s.relay.acts, Quit);
    }
  }

  lemma AuthSendOrderly(s: Server, w: SendOutcome)
    requires s.auth.Auth? && ServerTidy(s) && s.auth.ctl.Running?
    ensures AuthOrderly(s, AuthSend(s, w))
  {
    hide AuthKill, AuthAsk, AfterAuthSend, Judged, Adds;
    match SockSend(s.auth.buf, w)
    case Resched(dir) => AuthAskOrderly(s, dir);
    case Fault => AuthKillOrderly(s);
    case Bytes(n, b) =>
      var sent := s.(auth := s.auth.(buf := b));
      AuthKillOrderly(sent);
      AfterAuthOrderly(if n == 0 then AuthKill(sent) else sent);
  }

  // ----- honorConnect, the payload and the connect -----

  /** The upstreamer is at work and the AuthServer no longer is. */
  ghost predicate AtWork(s: Server) {
    ServerTidy(s) && s.relay.ctl.Running? && !s.phase.AwaitingAuth? && !s.phase.ReadingReq?
  }

  lemma SocketOrderly(s: Server, ok: bool)
    requires AtWork(s)
    ensures ServerOrderly(s, SrvSocket(s, ok))
    ensures SrvSocket(s, ok).phase.ReadingTfo? ==> AtWork(SrvSocket(s, ok))
  {
    hide Judged, Adds;
    AnswerOrderly(s, OP_FAILURE);
  }

  lemma TfoBufferedOrderly(s: Server)
    requires AtWork(s)
    ensures ServerOrderly(s, TfoBuffered(s))
  {
    hide Judged, Adds, Kept;
    SettleOrderly(s.relay, Armed(Src, In));
  }

  lemma TfoOrderly(s: Server, o: RecvOutcome)
    requires AtWork(s)
    ensures ServerOrderly(s, SrvTfo(s, o))
    ensures SrvTfo(s, o).phase.ConnectCall? && SrvTfo(s, o).relay.ctl.Running? ==> AtWork(SrvTfo(s, o))
  {
    hide AnswerSimple, TfoBuffered, Judged, Adds;
    AnswerOrderly(s, OP_FAILURE);
    if s.relay.buf.Used() < s.tfoPayload {
      match SockRecv(s.relay.buf, o)
      case Resched(dir) => SettleOrderly(s.relay, Armed(Src, dir));
      case Fault => SettleOrderly(s.relay, Dead);
      case Bytes(n, b) =>
        SettleOrderly(s.relay, Idle);
        TfoBufferedOrderly(s.(relay := s.relay.(buf := b)));
    }
  }

  lemma ConnectOrderly(s: Server, o: ConnectOutcome)
    requires AtWork(s)
    ensures ServerOrderly(s, SrvConnect(s, o))
  {
    AnswerOrderly(s, OP_FAILURE);
    SettleOrderly(s.relay.(buf := TfoRest(s.relay.buf, o, s.tfoPayload)), Armed(Dst, Out));
    hide AnswerSimple, TfoRest, Judged, Adds;
  }

  lemma ConnectedOrderly(s: Server, code: byte, ok: bool, bind: Message)
    requires AtWork(s)
    ensures ServerOrderly(s, SrvConnected(s, code, ok, bind))
    ensures SrvConnected(s, code, ok, bind).phase.Relaying? && SrvConnected(s, code, ok, bind).relay.ctl.Running? ==>
              AtWork(SrvConnected(s, code, ok, bind))
  {
    hide AnswerSimple, Loaded, Pack, Judged, Adds;
    AnswerOrderly(s, code);
    SettleOrderly(s.relay, Dead);
    LoadedTidy(Pack(bind.(code := OP_SUCCESS)), true);
  }

  lemma TfoThenConnectOrderly(s: Server, io: SrvIo)
    requires AtWork(s)
    ensures ServerOrderly(s, SrvTfoThenConnect(s, io))
  {
    hide SrvTfo, SrvConnect, Judged, Adds;
    var mid := SrvTfo(s, io.r);
    TfoOrderly(s, io.r);
    if mid.phase.ConnectCall? && mid.relay.ctl.Running? {
      ConnectOrderly(mid, io.o);
      ServerOrderlyThen(s, mid, SrvConnect(mid, io.o));
    }
  }

  lemma RelayOrderly(s: Server, q: Relay)
    requires AtWork(s) && Orderly(s.relay, q)
    ensures ServerOrderly(s, s.(relay := q))
  {
  }

  /** A whole call of `ProxyUpstreamer::process`. */
  lemma SrvCallOrderly(s: Server, io: SrvIo)
    requires ServerTidy(s) && s.relay.ctl.Running?
    ensures ServerOrderly(s, SrvProcess(s, io))
  {
    hide SrvReadReq, SrvTfoThenConnect, SrvConnected, Process, Judged, Adds;
    match s.phase
    case ReadingReq => ReadReqOrderly(s, io.r, io.auth);
    case ReadingTfo(_) => TfoThenConnectOrderly(s, io);
    case AwaitingConnect =>
      var mid := SrvConnected(s, io.code, io.ok, io.bind);
      ConnectedOrderly(s, io.code, io.ok, io.bind);
      if mid.phase.Relaying? && mid.relay.ctl.Running? {
        ProcessOrderly(mid.relay, io.rr, io.w);
        RelayOrderly(mid, Process(mid.relay, io.rr, io.w));
        ServerOrderlyThen(s, mid, mid.(relay := Process(mid.relay, io.rr, io.w)));
      }
    case Relaying =>
      ProcessOrderly(s.relay, io.rr, io.w);
      RelayOrderly(s, Process(s.relay, io.rr, io.w));
    case _ =>
  }

  lemma HonorOrderly(s: Server, socketOk: bool, io: SrvIo)
    requires AtWork(s)
    ensures ServerOrderly(s, SrvHonorConnect(s, socketOk, io))
  {
    hide SrvSocket, SrvTfoThenConnect, Judged, Adds;
    var mid := SrvSocket(s, socketOk);
    SocketOrderly(s, socketOk);
    if mid.phase.ReadingTfo? {
      TfoThenConnectOrderly(mid, io);
      ServerOrderlyThen(s, mid, SrvTfoThenConnect(mid, io));
    }
  }

  /** A whole call of `AuthServer::process` asks for at most one event for the AuthServer and at
      most one for the upstreamer it resumes. */
  lemma AuthCallOrderly(s: Server, w: SendOutcome, socketOk: bool, io: SrvIo)
    requires s.auth.Auth? && ServerTidy(s) && s.auth.ctl.Running?
    ensures AuthOrderly(s, AuthProcess(s, w, socketOk, io))
  {
    hide AuthSend, SrvHonorConnect, Judged, Adds;
    var mid := AuthSend(s, w);
    AuthSendOrderly(s, w);
    AuthSendHonors(s, w);
    if mid.phase.Honoring? {
      HonorOrderly(mid, socketOk, io);
      HonorSparesAuth(mid, socketOk, io);
    }
  }

  lemma AuthSendHonors(s: Server, w: SendOutcome)
    requires s.auth.Auth? && s.phase.AwaitingAuth?
    ensures AuthSend(s, w).phase.Honoring? ==> AuthSend(s, w).relay.ctl.Running?
  {
  }

  lemma HonorSparesAuth(s: Server, socketOk: bool, io: SrvIo)
    ensures SrvHonorConnect(s, socketOk, io).auth == s.auth
  {
  }

  // ----- every run -----

  lemma SetupTidy(p: World, ev: ProxyWorlds.Event)
    requires ServerTidy(p.srv) && Enabled(p, ev) && (ev.MakeSocket? || ev.ReadTfo? || ev.DoConnect? || ev.ConnectResult?)
    ensures ServerTidy(ProxyWorlds.Next(p, ev).srv)
  {
    hide SrvSocket, SrvTfo, SrvConnect, SrvConnected, Tidy, Kept, Judged, Adds;
    match ev
    case MakeSocket(ok) => SocketOrderly(p.srv, ok);
    case ReadTfo(t) => TfoOrderly(p.srv, Answer(p.b, t));
    case DoConnect(o) => ConnectOrderly(p.srv, o);
    case ConnectResult(code, ok, bind) => ConnectedOrderly(p.srv, code, ok, bind);
  }

  lemma RelayingTidy(p: World, ev: ProxyWorlds.Event)
    requires ServerTidy(p.srv) && Enabled(p, ev) && (ev.UpRecv? || ev.UpSend? || ev.Wakeup? || ev.Gone?)
    ensures ServerTidy(ProxyWorlds.Next(p, ev).srv)
  {
    var s := p.srv;
    hide RecvStep, SendStep, Destroyed, Judged, Adds;
    match ev
    case UpRecv(t) => RecvOrderly(s.relay, Answer(p.b, t));
    case UpSend(w) => SendOrderly(s.relay, w);
    case Wakeup => WakeTidy(s.relay);
    case Gone => DestroyedTidy(s.relay);
  }

  lemma ReplyTidy(p: World, ev: ProxyWorlds.Event)
    requires ServerTidy(p.srv) && Enabled(p, ev) && (ev.ReplyRecv? || ev.ReplySend? || ev.ReplyWakeup? || ev.ReplyGone?)
    ensures ServerTidy(ProxyWorlds.Next(p, ev).srv)
  {
    var out := p.srv.reply.out;
    hide RecvStep, SendStep, Destroyed, Wake, Judged, Adds;
    match ev
    case ReplyRecv(t) => RecvOrderly(out, Answer(p.d, t));
    case ReplySend(w) => SendOrderly(out, w);
    case ReplyWakeup => WakeTidy(out);
    case ReplyGone => DestroyedTidy(out);
  }

  lemma AuthWakeTidy(s: Server)
    requires ServerTidy(s)
    ensures ServerTidy(AuthWake(s))
  {
    hide Judged, Adds;
    if s.auth.Auth? {
      JudgedNext(s.auth.acts, Fired);
    }
  }

  lemma NextTidy(p: World, ev: ProxyWorlds.Event)
    requires ServerTidy(p.srv)
    ensures ServerTidy(ProxyWorlds.Next(p, ev).srv)
  {
    hide SrvReadReq, AuthSend, ServerTidy, Judged, Adds;
    if Enabled(p, ev) {
      match ev
      case ReadReq(t, a) => ReadReqOrderly(p.srv, Answer(p.b, t), a);
      case AuthWakeup => AuthWakeTidy(p.srv);
      case AuthWrite(w) => AuthSendOrderly(p.srv, w);
      case MakeSocket(_) => SetupTidy(p, ev);
      case ReadTfo(_) => SetupTidy(p, ev);
      case DoConnect(_) => SetupTidy(p, ev);
      case ConnectResult(_, _, _) => SetupTidy(p, ev);
      case UpRecv(_) => RelayingTidy(p, ev);
      case UpSend(_) => RelayingTidy(p, ev);
      case Wakeup => RelayingTidy(p, ev);
      case Gone => RelayingTidy(p, ev);
      case ReplyRecv(_) => ReplyTidy(p, ev);
      case ReplySend(_) => ReplyTidy(p, ev);
      case ReplyWakeup => ReplyTidy(p, ev);
      case ReplyGone => ReplyTidy(p, ev);
      case _ =>
    }
  }

  ghost predicate DownTidy(down: Option<Downstream>) { down.Some? ==> Tidy(down.value.relay) }

  ghost predicate TunnelTidy(t: Tunnel) { Tidy(t.up.relay) && DownTidy(t.down) && ServerTidy(t.p.srv) }

  lemma UpDoTidy(t: Tunnel, e: Step)
    requires Tidy(t.up.relay) && Can(t, e)
    ensures Tidy(Do(t, e).up.relay)
  {
    var up := t.up;
    hide UpRead, UpOpen, UpCheck, UpEarly, UpForce, UpRequest, RecvStep, SendStep, Destroyed, Wake, Tidy, Mute, Reported, Judged, Adds;
    match e
    case StartRead(k) => UpReadOrderly(up, Answer(t.a, k), Pack(t.request));
    case StartOpen(o, max, early) => UpOpenOrderly(up, o, max, early);
    case UpWakeup => WakeTidy(up.relay);
    case SoError(failed) => UpCheckOrderly(up, failed);
    case SkipTls => UpCheckOrderly(up, false);
    case EarlyWrite(w) => UpEarlyOrderly(up, w);
    case Handshake(h) => UpForceOrderly(up, h);
    case FirstSend(w) => UpRequestOrderly(up, w);
    case UpRelayRecv(k) => RecvOrderly(up.relay, Answer(t.a, k));
    case UpRelaySend(w) => SendOrderly(up.relay, w);
    case UpVanish => DestroyedTidy(up.relay);
    case _ =>
  }

  lemma DownDoTidy(t: Tunnel, e: Step)
    requires DownTidy(t.down) && Can(t, e)
    ensures DownTidy(Do(t, e).down)
  {
    hide DownRead, NewDownstream, RecvStep, SendStep, Destroyed, Wake, Tidy, Mute, Reported, Judged, Adds,
      UpRead, UpOpen, UpForce, UpEarly, UpRequest;
    match e
    case FirstSend(_) => NewDownstreamTidy();
    case DownWakeup => if t.down.Some? { WakeTidy(t.down.value.relay); }
    case DownReply(k) => DownReadOrderly(t.down.value, Answer(t.p.e, k));
    case DownRelayRecv(k) => RecvOrderly(t.down.value.relay, Answer(t.p.e, k));
    case DownRelaySend(w) => SendOrderly(t.down.value.relay, w);
    case DownVanish => DestroyedTidy(t.down.value.relay);
    case _ =>
  }

  lemma SrvDoTidy(t: Tunnel, e: Step)
    requires ServerTidy(t.p.srv)
    ensures ServerTidy(Do(t, e).p.srv)
  {
    hide ServerTidy;
    if e.InProxy? {
      NextTidy(t.p, e.ev);
    } else {
      ProxyUntouched(t, e);
      hide Do;
    }
  }

  lemma DoTidy(t: Tunnel, e: Step)
    requires TunnelTidy(t)
    ensures TunnelTidy(Do(t, e))
  {
    hide Judged, Adds;
    SrvDoTidy(t, e);
    if Can(t, e) {
      UpDoTidy(t, e);
      DownDoTidy(t, e);
    }
  }

  lemma {:induction false} RunTidy(t: Tunnel, es: seq<Step>)
    requires TunnelTidy(t)
    ensures TunnelTidy(Tunnels.Run(t, es))
    decreases |es|
  {
    hide Judged, Adds;
    if es != [] {
      DoTidy(t, es[0]);
      RunTidy(Do(t, es[0]), es[1..]);
    }
  }

  lemma {:induction false} ServerRunTidy(p: World, evs: seq<ProxyWorlds.Event>)
    requires ServerTidy(p.srv)
    ensures ServerTidy(ProxyWorlds.Run(p, evs).srv)
    decreases |evs|
  {
    hide Judged, Adds;
    if evs != [] {
      NextTidy(p, evs[0]);
      ServerRunTidy(ProxyWorlds.Next(p, evs[0]), evs[1..]);
    }
  }

  function ServerLogs(s: Server): set<seq<Action>> {
    {s.relay.acts} + (if s.auth.Auth? then {s.auth.acts} else {}) + (if s.reply.NoReply? then {} else {s.reply.out.acts})
  }

  /** The logs of all the reactors of a tunnel. */
  function TunnelLogs(t: Tunnel): set<seq<Action>> {
    {t.up.relay.acts} + (if t.down.Some? then {t.down.value.relay.acts} else {}) + ServerLogs(t.p.srv)
  }

  /** In every run of a tunnel every reactor keeps the discipline, whatever the request. */
  lemma TunnelObeys(request: Message, tls: bool, es: seq<Step>, log: seq<Action>)
    requires log in TunnelLogs(Tunnels.Run(NewTunnel(request, tls), es))
    ensures Obeys(log) && OwnOnly(log)
  {
    RunTidy(NewTunnel(request, tls), es);
  }

  /** The same for the proxy between any client and any remote. */
  lemma ProxyObeys(evs: seq<ProxyWorlds.Event>, log: seq<Action>)
    requires log in ServerLogs(ProxyWorlds.Run(NEW_WORLD, evs).srv)
    ensures Obeys(log) && OwnOnly(log)
  {
    ServerRunTidy(NEW_WORLD, evs);
  }

  // ----- the other reactors -----

  /** ListenReactor, TimeoutReactor and the two supplication agents own one descriptor, a
      ReadableDeferReactor borrows one (`Raw`): each call asks for one event on it, or for none. */
  datatype Lone = Lone(side: Side, ctl: Ctl, acts: seq<Action>)

  datatype Turn = Ask(dir: Dir) | Fire | Rest | Die | Destroy

  function LoneNext(s: Lone, turn: Turn): Lone {
    match turn
    case Ask(dir) => if s.ctl.Running? then s.(ctl := Armed(s.side, dir), acts := s.acts + [Add(s.side, dir)]) else s
    case Fire => if s.ctl.Armed? then s.(ctl := Running, acts := s.acts + [Fired]) else s
    case Rest => if s.ctl.Running? then s.(ctl := Idle) else s
    case Die => if s.side.Raw? && s.ctl.Armed? then s else s.(ctl := Dead, acts := s.acts + [Quit])
    case Destroy => if Live(s.ctl) || !s.side.Sock? then s else s.(acts := StickTeardown(s.acts))
  }

  function LoneRun(s: Lone, turns: seq<Turn>): Lone
    decreases |turns|
  {
    if turns == [] then s else LoneRun(LoneNext(s, turns[0]), turns[1..])
  }

  ghost predicate LoneTidy(s: Lone) {
    Obeys(s.acts) && Judged(s.acts).armed == (if s.ctl.Armed? then Some(s.side) else None)
  }

  lemma LoneNextTidy(s: Lone, turn: Turn)
    requires LoneTidy(s)
    ensures LoneTidy(LoneNext(s, turn))
  {
    hide Judged, Adds;
    match turn
    case Ask(dir) => JudgedNext(s.acts, Add(s.side, dir));
    case Fire => JudgedNext(s.acts, Fired);
    case Die => JudgedNext(s.acts, Quit);
    case Destroy =>
      JudgedNext(s.acts, Remove(Sock));
      JudgedNext(s.acts + [Remove(Sock)], Reset(Sock));
    case Rest =>
  }

  lemma {:induction false} LoneObeys(s: Lone, turns: seq<Turn>)
    requires LoneTidy(s)
    ensures LoneTidy(LoneRun(s, turns))
    decreases |turns|
  {
    hide Judged, Adds;
    if turns != [] {
      LoneNextTidy(s, turns[0]);
      LoneObeys(LoneNext(s, turns[0]), turns[1..]);
    }
  }

  // ----- the loop -----

  ghost predicate TunnelMade(log: seq<Action>) {
    exists request: Message, tls: bool, es: seq<Step> :: log in TunnelLogs(Tunnels.Run(NewTunnel(request, tls), es))
  }

  ghost predicate ProxyMade(log: seq<Action>) {
    exists evs: seq<ProxyWorlds.Event> :: log in ServerLogs(ProxyWorlds.Run(NEW_WORLD, evs).srv)
  }

  ghost predicate LoneMade(log: seq<Action>) {
    exists side: Side, turns: seq<Turn> :: log == LoneRun(Lone(side, Running, []), turns).acts
  }

  /** Another reactor or a timer may deactivate a reactor between two calls; it is then destroyed
      once nobody refers to it. */
  function Ended(log: seq<Action>): seq<Action> { log + [Quit] }

  /** A log that some reactor of this program can have: one a machine makes, or one cut short
      from outside, or the beginning of either. */
  ghost predicate Lawful(log: seq<Action>) {
    LoneMade(log) || exists base: seq<Action>, stop: nat :: Cut(log, base, stop)
  }

  ghost predicate Cut(log: seq<Action>, base: seq<Action>, stop: nat) {
    && (TunnelMade(base) || ProxyMade(base)) && stop <= |base|
    && (log <= base || log <= Teardown(Ended(base[..stop])) || log <= StickTeardown(Ended(base[..stop])))
  }

  lemma CutObeys(base: seq<Action>, stop: nat)
    requires Obeys(base) && OwnOnly(base) && stop <= |base|
    ensures Obeys(Teardown(Ended(base[..stop]))) && Obeys(StickTeardown(Ended(base[..stop])))
  {
    hide Judged, Adds;
    ObeysPrefix(base[..stop], base);
    QuitObeys(base[..stop]);
    TeardownObeys(Ended(base[..stop]));
  }

  lemma LawfulObeys(log: seq<Action>)
    requires Lawful(log)
    ensures Obeys(log)
  {
    if LoneMade(log) {
      var side, turns :| log == LoneRun(Lone(side, Running, []), turns).acts;
      LoneObeys(Lone(side, Running, []), turns);
    } else {
      var base: seq<Action>, stop: nat :| Cut(log, base, stop);
      MadeObeys(base);
      CutObeys(base, stop);
      if log <= base {
        ObeysPrefix(log, base);
      } else if log <= Teardown(Ended(base[..stop])) {
        ObeysPrefix(log, Teardown(Ended(base[..stop])));
      } else {
        ObeysPrefix(log, StickTeardown(Ended(base[..stop])));
      }
    }
  }

  lemma MadeObeys(base: seq<Action>)
    requires TunnelMade(base) || ProxyMade(base)
    ensures Obeys(base) && OwnOnly(base)
  {
    hide Judged, Adds;
    if TunnelMade(base) {
      var request, tls, es :| base in TunnelLogs(Tunnels.Run(NewTunnel(request, tls), es));
      TunnelObeys(request, tls, es, base);
    } else {
      var evs :| base in ServerLogs(ProxyWorlds.Run(NEW_WORLD, evs).srv);
      ProxyObeys(evs, base);
    }
  }

  /** Any number of tunnels, proxied connections, listeners, timers and agents share one loop. As
      long as each behaves as its code does, in every reachable state the table agrees with
      epoll, nothing was closed while registered, an armed descriptor belongs to an active
      reactor that waits on it, no reactor has two armed descriptors, and no event was lost. */
  lemma LoopIsSafe(size: nat, evs: seq<Dispatcher.Event>)
    requires forall r :: r in Dispatcher.Run(Dispatcher.NewLoop(size), evs).logs ==>
               Lawful(Dispatcher.Run(Dispatcher.NewLoop(size), evs).logs[r])
    ensures var w := Dispatcher.Run(Dispatcher.NewLoop(size), evs);
            && Dispatcher.Agrees(w.poll) && !w.stale && !w.lost
            && (forall fd: nat :: Dispatcher.ArmedFd(w, fd) ==>
                  && fd < |w.poll.table| && w.poll.table[fd].reactor.Some?
                  && Dispatcher.Holds(w, w.poll.table[fd].reactor.value, fd))
            && (forall f: nat, g: nat :: Dispatcher.ArmedFd(w, f) && Dispatcher.ArmedFd(w, g) && f != g ==>
                  w.poll.table[f].reactor != w.poll.table[g].reactor)
  {
    hide Judged, Adds;
    var w := Dispatcher.Run(Dispatcher.NewLoop(size), evs);
    forall r | r in w.logs
      ensures Obeys(w.logs[r])
    {
      LawfulObeys(w.logs[r]);
    }
    Dispatcher.NewLoopInv(size);
    Dispatcher.RunKeeps(Dispatcher.NewLoop(size), evs);
    Dispatcher.DispatchSafety(size, evs);
  }
}
