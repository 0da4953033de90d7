/** One connection of the proxy between an arbitrary client and an arbitrary remote. The four
    sockets' directions are FIFO pipes; any enabled system call of any party may happen next. */
module ProxyWorlds {
  import opened Wrappers
  import opened Codec
  import opened Buffers
  import opened Logs
  import opened Relays
  import opened ProxifierReactors
  import opened ProxyReactors

  /** All bytes ever written, how many of them were read, and whether the writer has closed. */
  datatype PipeState = PipeState(sent: seq<byte>, taken: nat, fin: bool)

  type Pipe = p: PipeState | p.taken <= |p.sent| witness PipeState([], 0, false)

  const NEW_PIPE: Pipe := PipeState([], 0, false)

  function Push(p: Pipe, bytes: seq<byte>): Pipe { p.(sent := p.sent + bytes) }

  function Pull(p: Pipe, k: nat): Pipe { p.(taken := Min(p.taken + k, |p.sent|)) }

  function Close(p: Pipe, closing: bool): Pipe { p.(fin := p.fin || closing) }

  function Read(p: Pipe): seq<byte> { p.sent[..p.taken] }

  predicate AtEof(p: Pipe) { p.fin && p.taken == |p.sent| }

  /** What a reader's call may come back with. */
  datatype Take = TakeSome(n: nat) | TakeEof | TakeAgain(dir: Dir) | TakeBroken | TakeFailed

  predicate CanTake(p: Pipe, t: Take) {
    match t
    case TakeSome(n) => n > 0 && p.taken < |p.sent|
    case TakeEof => AtEof(p)
    case _ => true
  }

  function Answer(p: Pipe, t: Take): RecvOutcome {
    match t
    case TakeSome(n) => Received(p.sent[p.taken..Min(p.taken + n, |p.sent|)])
    case TakeEof => Received([])
    case TakeAgain(dir) => RecvAgain(dir)
    case TakeBroken => RecvBroken
    case TakeFailed => RecvFailed
  }

  /** The pipe after a read into buffer `b`. */
  function After(p: Pipe, b: Buf, t: Take): Pipe { Pull(p, |Gets(b, Answer(p, t))|) }

  predicate BadTake(t: Take) { t.TakeBroken? || t.TakeFailed? }

  predicate BadSend(w: SendOutcome) { w.SendBroken? || w.SendFailed? }

  /** Reading moves bytes from the pipe to the end of the buffer, in order. */
  lemma TakeEffect(p: Pipe, b: Buf, t: Take)
    requires b.Valid()
    ensures Read(After(p, b, t)) == Read(p) + Gets(b, Answer(p, t))
    ensures After(p, b, t).sent == p.sent && After(p, b, t).fin == p.fin
    ensures CanTake(p, t) && t.TakeSome? && b.Avail() > 0 ==> Gets(b, Answer(p, t)) != []
  {
    if t.TakeSome? {
      var all := Answer(p, t).data;
      var got := Gets(b, Answer(p, t));
      assert |got| <= |all| && p.taken + |got| <= |p.sent|;
      assert forall i :: 0 <= i < |got| ==> got[i] == all[i] == p.sent[p.taken + i];
      assert got == p.sent[p.taken..p.taken + |got|];
    }
  }

  /** `b`: client to proxy, `c`: proxy to remote, `d`: remote to proxy, `e`: proxy to client.
      `broken`: a reactor gave up for a reason other than the end of its source. */
  datatype World = World(b: Pipe, c: Pipe, d: Pipe, e: Pipe, srv: Server, broken: bool)

  const NEW_WORLD := World(NEW_PIPE, NEW_PIPE, NEW_PIPE, NEW_PIPE, NEW_SERVER, false)

  datatype Event =
    | ClientSend(bytes: seq<byte>) | ClientFin | ClientTake(k: nat)
    | RemoteSend(bytes: seq<byte>) | RemoteFin
    | Wakeup | ReadReq(t: Take, reply: Message)
    | AuthWakeup | AuthWrite(w: SendOutcome)
    | MakeSocket(ok: bool) | ReadTfo(t: Take) | DoConnect(o: ConnectOutcome)
    | ConnectResult(code: byte, ok: bool, bind: Message)
    | UpRecv(t: Take) | UpSend(w: SendOutcome)
    | ReplyWakeup | ReplyRecv(t: Take) | ReplySend(w: SendOutcome)
    | Gone | ReplyGone

  predicate Live(c: Ctl) { c.Running? || c.Armed? }

  function SetOut(r: ReplyState, out: Relay): ReplyState {
    match r
    case NoReply => r
    case VersionReply(_) => VersionReply(out)
    case Simple(m, _) => Simple(m, out)
    case Connect(m, _) => Connect(m, out)
  }

  /** Which system call may happen next. */
  predicate Enabled(p: World, ev: Event) {
    var s := p.srv;
    match ev
    case ClientSend(_) => !p.b.fin
    case RemoteSend(_) => !p.d.fin
    case Wakeup => s.relay.ctl.Armed?
    case ReadReq(t, a) => s.relay.ctl.Running? && s.phase.ReadingReq? && CanTake(p.b, t) && |Pack(a)| <= HEADROOM
    case AuthWrite(_) => s.auth.Auth? && s.auth.ctl.Running?
    case MakeSocket(_) => s.relay.ctl.Running? && s.phase.Honoring?
    case ReadTfo(t) => s.relay.ctl.Running? && s.phase.ReadingTfo? && CanTake(p.b, t)
    case DoConnect(_) => s.relay.ctl.Running? && s.phase.ConnectCall?
    case ConnectResult(_, _, bind) => s.relay.ctl.Running? && s.phase.AwaitingConnect? && |Pack(bind)| <= HEADROOM
    case UpRecv(t) => s.relay.ctl.Running? && s.phase.Relaying? && s.relay.mode.Receiving? && CanTake(p.b, t)
    case UpSend(_) => s.relay.ctl.Running? && s.phase.Relaying? && s.relay.mode.Sending?
    case ReplyWakeup => !s.reply.NoReply?
    case ReplyRecv(t) => s.reply.Connect? && s.reply.out.ctl.Running? && s.reply.out.mode.Receiving? && CanTake(p.d, t)
    case ReplySend(_) => !s.reply.NoReply? && s.reply.out.ctl.Running? && s.reply.out.mode.Sending?
    case Gone => !Live(s.relay.ctl) && s.relay.dstOpen
    case ReplyGone => !s.reply.NoReply? && !Live(s.reply.out.ctl) && s.reply.out.dstOpen
    case _ => true
  }

  /** Its effect; a call that is not enabled changes nothing. */
  function Next(p: World, ev: Event): World {
    if !Enabled(p, ev) then p else
    var s := p.srv;
    var buf := s.relay.buf;
    match ev
    case ClientSend(x) => p.(b := Push(p.b, x))
    case ClientFin => p.(b := Close(p.b, true))
    case ClientTake(k) => p.(e := Pull(p.e, k))
    case RemoteSend(x) => p.(d := Push(p.d, x))
    case RemoteFin => p.(d := Close(p.d, true))
    case Wakeup => p.(srv := SrvWake(s))
    case ReadReq(t, a) =>
      p.(srv := SrvReadReq(s, Answer(p.b, t), a), b := After(p.b, buf, t), broken := p.broken || BadTake(t))
    case AuthWakeup => p.(srv := AuthWake(s))
    case AuthWrite(w) =>
      p.(srv := AuthSend(s, w), e := Push(p.e, Puts(s.auth.buf, w)), broken := p.broken || BadSend(w))
    case MakeSocket(ok) => p.(srv := SrvSocket(s, ok), broken := p.broken || !ok)
    case ReadTfo(t) =>
      if buf.Used() >= s.tfoPayload then p.(srv := SrvTfo(s, Answer(p.b, t)))
      else p.(srv := SrvTfo(s, Answer(p.b, t)), b := After(p.b, buf, t),
             broken := p.broken || !(t.TakeSome? || (t.TakeAgain? && s.phase == ReadingTfo(false))))
    case DoConnect(o) =>
      if o.ConnectFailed? then p.(srv := SrvConnect(s, o), broken := true)
      else p.(srv := SrvConnect(s, o), c := Push(p.c, buf.data[..TfoCount(buf, o, s.tfoPayload)]))
    case ConnectResult(code, ok, bind) =>
      p.(srv := SrvConnected(s, code, ok, bind), broken := p.broken || code != OP_SUCCESS || !ok)
    case UpRecv(t) =>
      var relay := RecvStep(s.relay, Answer(p.b, t));
      p.(srv := s.(relay := relay), b := After(p.b, buf, t), c := Close(p.c, !relay.dstOpen),
         broken := p.broken || BadTake(t))
    case UpSend(w) =>
      var relay := SendStep(s.relay, w);
      p.(srv := s.(relay := relay), c := Close(Push(p.c, Puts(buf, w)), !relay.dstOpen),
         broken := p.broken || BadSend(w) || !relay.dstOpen)
    case ReplyWakeup => p.(srv := s.(reply := SetOut(s.reply, Wake(s.reply.out))))
    case ReplyRecv(t) =>
      var out := RecvStep(s.reply.out, Answer(p.d, t));
      p.(srv := s.(reply := SetOut(s.reply, out)), d := After(p.d, s.reply.out.buf, t),
         e := Close(p.e, !out.dstOpen), broken := p.broken || BadTake(t))
    case ReplySend(w) =>
      var out := SendStep(s.reply.out, w);
      p.(srv := s.(reply := SetOut(s.reply, out)), e := Close(Push(p.e, Puts(s.reply.out.buf, w)), !out.dstOpen),
         broken := p.broken || BadSend(w) || !out.dstOpen)
    case Gone =>
      p.(srv := s.(relay := Destroyed(s.relay)), c := Close(p.c, true), broken := true)
    case ReplyGone =>
      p.(srv := s.(reply := SetOut(s.reply, Destroyed(s.reply.out))),
         e := Close(p.e, true), broken := true)
  }

  // ----- what every step keeps -----

  predicate Past(s: Server) { !s.phase.ReadingReq? && !s.phase.AwaitingAuth? }

  /** How the phase, the AuthServer and the downstreamer go together. */
  ghost predicate Shape(s: Server) {
    && s.relay.buf.Valid()
    && s.tfoPayload <= MSS
    && (s.phase.ReadingReq? <==> s.request.None?)
    && (s.phase.ReadingReq? <==> s.auth.NoAuth?)
    && (s.phase.ReadingReq? ==> s.relay.buf.head == 0 && (s.reply.NoReply? || s.reply.VersionReply?))
    && (s.phase.ReadingReq? && Live(s.relay.ctl) ==> s.reply.NoReply? && Parse(s.relay.buf.data).EndOfBuffer?)
    && (s.reply.VersionReply? ==> s.phase.ReadingReq?)
    && (s.reply.Simple? <==> s.phase.Answered?)
    && (s.reply.Connect? <==> s.phase.Relaying?)
    && (s.phase.AwaitingAuth? || s.phase.Answered? ==> !Live(s.relay.ctl))
    && (s.phase.Relaying? ==> Inv(s.relay))
    && (!s.reply.NoReply? ==> Inv(s.reply.out))
    && (s.reply.Simple? || s.reply.Connect? ==> |Pack(s.reply.reply)| <= HEADROOM)
    && (s.request.Some? && (s.phase.AwaitingAuth? || s.phase.Honoring? || s.phase.ReadingTfo? || s.phase.ConnectCall?)
        ==> s.relay.buf.head <= |Pack(s.request.value)| && (s.relay.buf.data == [] ==> s.relay.buf.head == 0))
    && (s.phase.AwaitingConnect? ==> s.relay.buf.data == [] ==> s.relay.buf.head == 0)
    && (s.phase.ReadingTfo? || s.phase.ConnectCall? || s.phase.AwaitingConnect? || s.phase.Relaying? ==> s.remote)
    && (s.remote ==> Past(s))
    && (s.relay.dstOpen ==> s.remote)
    && (Live(s.relay.ctl) && (s.phase.AwaitingConnect? || s.phase.ReadingTfo? || s.phase.ConnectCall?)
        ==> s.relay.dstOpen && s.relay.srcOpen)
    && (s.phase.Honoring? && Live(s.relay.ctl) ==> s.relay.srcOpen)
    && (s.phase.ReadingReq? && Live(s.relay.ctl) ==> s.relay.srcOpen)
    && (s.phase.AwaitingAuth? && s.auth.Auth? && Live(s.auth.ctl) ==> s.relay.srcOpen)
  }

  /** The AuthServer drains its reply before anything else is done. */
  ghost predicate AuthShape(s: Server) {
    s.auth.Auth? ==>
      && s.auth.buf.Valid()
      && |Pack(s.auth.reply)| <= HEADROOM
      && (Live(s.auth.ctl) ==> s.auth.buf.Used() > 0)
      && (s.auth.buf.Used() > 0 ==> s.phase.AwaitingAuth?)
      && (Past(s) ==> s.auth.reply.code == AUTH_SUCCESS)
  }

  ghost predicate Counters(s: Server) {
    && s.authDones == (if Past(s) then 1 else 0)
    && s.opReplies == (if s.reply.Simple? || s.reply.Connect? then 1 else 0)
  }

  function RequestBytes(s: Server): seq<byte> { if s.request.Some? then Pack(s.request.value) else [] }

  /** From the client: request, then exactly what went on to the remote, then the buffer. */
  ghost predicate Inbound(p: World) {
    && Read(p.b) == RequestBytes(p.srv) + p.c.sent + p.srv.relay.buf.data
    && (p.c.sent != [] ==> p.srv.remote)
  }

  /** All that the proxy itself has to say to the client. */
  function Spoken(s: Server): seq<byte> {
    (if s.auth.Auth? then Pack(s.auth.reply) else []) +
    (match s.reply
     case NoReply => []
     case VersionReply(_) => [SOCKS6_VERSION]
     case Simple(m, _) => Pack(m)
     case Connect(m, _) => Pack(m))
  }

  function Unsent(s: Server): seq<byte> {
    (if s.auth.Auth? then s.auth.buf.data else []) + (if s.reply.NoReply? then [] else s.reply.out.buf.data)
  }

  /** To the client: what the proxy has to say, then what the remote sent. */
  ghost predicate Outbound(p: World) {
    && p.e.sent + Unsent(p.srv) == Spoken(p.srv) + Read(p.d)
    && (p.d.taken > 0 ==> p.srv.reply.Connect?)
    && (Past(p.srv) && p.srv.auth.Auth? ==> Pack(p.srv.auth.reply) <= p.e.sent)
  }

  ghost predicate Closing(p: World) {
    && (p.c.fin ==> Past(p.srv) && !Live(p.srv.relay.ctl))
    && (p.e.fin ==> !p.srv.reply.NoReply? && !Live(p.srv.reply.out.ctl))
    && (!p.broken && p.c.fin ==> p.srv.phase.Relaying? && AtEof(p.b) && p.srv.relay.buf.data == [])
    && (!p.broken && p.e.fin ==> p.srv.reply.Connect? && AtEof(p.d) && p.srv.reply.out.buf.data == [])
  }

  ghost predicate WorldInv(p: World) {
    Shape(p.srv) && AuthShape(p.srv) && Counters(p.srv) && Inbound(p) && Outbound(p) && Closing(p)
  }

  lemma StartKeeps()
    ensures WorldInv(NEW_WORLD)
  {
  }

  /** The part of the invariant that is not about bytes. */
  ghost predicate Control(p: World) { Shape(p.srv) && AuthShape(p.srv) && Counters(p.srv) && Closing(p) }

  lemma Regroup(x: seq<byte>, y: seq<byte>, z: seq<byte>)
    ensures (x + y) + z == x + (y + z)
  {
  }

  // ----- control -----

  /** The parts of the invariant that speak of the reactors alone. */
  ghost predicate Reactors(s: Server) { Shape(s) && AuthShape(s) && Counters(s) }

  lemma ParseReqShape(s: Server, b: Buf, a: Message)
    requires Reactors(s) && s.phase.ReadingReq? && s.relay.ctl.Running? && b.Valid() && b.head == 0 && |Pack(a)| <= HEADROOM
    ensures var q := SrvParseReq(s.(relay := s.relay.(buf := b)), a);
            Reactors(q) && !Past(q) && (q.reply.NoReply? || q.reply.VersionReply?)
  {
    if Parse(b.data).Parsed? {
      TakenShape(s, b, Parse(b.data).message, Parse(b.data).used, a);
    }
  }

  lemma TakenShape(s: Server, b: Buf, m: Message, n: nat, a: Message)
    requires Reactors(s) && s.phase.ReadingReq? && s.relay.ctl.Running? && b.Valid() && b.head == 0 && |Pack(a)| <= HEADROOM
    requires n <= b.Used() && n == |Pack(m)|
    ensures var q := s.(phase := AwaitingAuth, relay := s.relay.(buf := b.Unuse(n), ctl := Idle),
                        request := Some(m), auth := Auth(a, Buf(0, Pack(a)), Running, []));
            Reactors(q) && !Past(q) && q.reply.NoReply?
  {
    hide Parse, Inv;
  }

  lemma ReadReqShape(s: Server, o: RecvOutcome, a: Message)
    requires Reactors(s) && s.phase.ReadingReq? && s.relay.ctl.Running? && |Pack(a)| <= HEADROOM
    ensures var q := SrvReadReq(s, o, a);
            Reactors(q) && !Past(q) && (q.reply.NoReply? || q.reply.VersionReply?)
  {
    hide SrvParseReq, Parse, Pack, Inv;
    IoEffect(s.relay.buf, o, SendBroken);
    var io := SockRecv(s.relay.buf, o);
    if io.Bytes? {
      ParseReqShape(s, io.buf, a);
    }
  }

  lemma ReadReqControl(p: World, t: Take, a: Message)
    requires Control(p) && Enabled(p, ReadReq(t, a))
    ensures Control(Next(p, ReadReq(t, a)))
  {
    ReadReqShape(p.srv, Answer(p.b, t), a);
    var q := Next(p, ReadReq(t, a));
    assert q.c == p.c && q.e == p.e && !p.c.fin && !p.e.fin;
  }

  /** What the AuthServer leaves alone, whatever it does. */
  ghost predicate Spared(s: Server, q: Server) {
    && q.request == s.request && q.relay.buf == s.relay.buf && q.relay.srcOpen == s.relay.srcOpen
    && q.relay.dstOpen == s.relay.dstOpen && q.remote == s.remote && q.tfoPayload == s.tfoPayload
    && s.auth.Auth? && q.auth.Auth? && q.auth.reply == s.auth.reply
  }

  lemma AuthDoneSpares(s: Server)
    requires s.auth.Auth?
    ensures Spared(s, AuthDone(s)) && AuthDone(s).auth == s.auth
  {
    hide Loaded, Pack;
  }

  lemma AfterAuthSpares(s: Server)
    requires s.auth.Auth?
    ensures Spared(s, AfterAuthSend(s)) && AfterAuthSend(s).auth.buf == s.auth.buf
  {
    hide AuthDone;
    AuthDoneSpares(s.(auth := s.auth.(ctl := Idle)));
  }

  lemma AuthSendSpares(s: Server, w: SendOutcome)
    requires s.auth.Auth?
    ensures Spared(s, AuthSend(s, w))
    ensures var io := SockSend(s.auth.buf, w); AuthSend(s, w).auth.buf == if io.Bytes? then io.buf else s.auth.buf
  {
    hide AfterAuthSend;
    var io := SockSend(s.auth.buf, w);
    if io.Bytes? {
      var sent := s.(auth := s.auth.(buf := io.buf));
      AfterAuthSpares(if io.count == 0 then AuthKill(sent) else sent);
    }
  }

  /** Where the AuthServer can leave a connection: still waiting, turned away, or with its request
      being honored or answered once the reply is out. */
  ghost predicate AuthSettled(s: Server, q: Server) {
    if q.phase.AwaitingAuth? then
      && q.reply.NoReply? && q.authDones == s.authDones && q.opReplies == s.opReplies && !Live(q.relay.ctl)
      && (q.auth.Auth? && Live(q.auth.ctl) ==> q.auth.buf.Used() > 0)
    else
      && s.request.Some? && q.auth.Auth? && q.auth.buf.Used() == 0 && q.auth.ctl.Idle? && q.auth.reply.code == AUTH_SUCCESS
      && q.authDones == s.authDones + 1
      && (if q.phase.Honoring? then q.reply.NoReply? && q.opReplies == s.opReplies
          else q.phase.Answered? && !Live(q.relay.ctl) && q.opReplies == s.opReplies + 1 && q.reply.Simple?
               && Inv(q.reply.out) && |Pack(q.reply.reply)| <= HEADROOM && q.reply.out.buf.data == Pack(q.reply.reply))
  }

  lemma AnswerSettles(s: Server, code: byte)
    ensures var q := AnswerSimple(s, code);
            && q.phase.Answered? && !Live(q.relay.ctl) && q.opReplies == s.opReplies + 1 && q.reply.Simple? && q.auth == s.auth
            && Inv(q.reply.out) && |Pack(q.reply.reply)| <= HEADROOM && q.reply.out.buf.data == Pack(q.reply.reply)
            && q.authDones == s.authDones
  {
  }

  lemma AuthDoneSettles(s: Server)
    requires s.auth.Auth? && s.auth.ctl.Idle? && s.auth.buf.Used() == 0 && s.auth.reply.code == AUTH_SUCCESS
    requires s.request.Some? && s.reply.NoReply?
    ensures AuthSettled(s, AuthDone(s))
  {
    hide AnswerSimple, Pack;
    var more := s.(authDones := s.authDones + 1);
    AnswerSettles(more, OP_ADDR_NOT_SUPPORTED);
    AnswerSettles(more, OP_SUCCESS);
    AnswerSettles(more, OP_CMD_NOT_SUPPORTED);
  }

  lemma AfterAuthSettles(s: Server)
    requires s.auth.Auth? && s.request.Some? && s.reply.NoReply? && s.phase.AwaitingAuth? && !Live(s.relay.ctl)
    ensures AuthSettled(s, AfterAuthSend(s))
  {
    hide AuthDone, Pack;
    if s.auth.buf.Used() == 0 && s.auth.reply.code == AUTH_SUCCESS {
      AuthDoneSettles(s.(auth := s.auth.(ctl := Idle)));
    }
  }

  lemma AuthSendSettles(s: Server, w: SendOutcome)
    requires s.auth.Auth? && s.auth.buf.Used() > 0 && s.request.Some? && s.reply.NoReply? && s.phase.AwaitingAuth? && !Live(s.relay.ctl)
    ensures AuthSettled(s, AuthSend(s, w))
  {
    hide AfterAuthSend, Pack;
    var io := SockSend(s.auth.buf, w);
    if io.Bytes? {
      var sent := s.(auth := s.auth.(buf := io.buf));
      AfterAuthSettles(if io.count == 0 then AuthKill(sent) else sent);
    }
  }

  lemma AuthWriteControl(p: World, w: SendOutcome)
    requires Control(p) && Enabled(p, AuthWrite(w))
    ensures Control(Next(p, AuthWrite(w)))
  {
    hide AuthSend, Inv, Pack, Parse;
    var s := p.srv;
    assert s.phase.AwaitingAuth? && s.reply.NoReply?;
    IoEffect(s.auth.buf, RecvBroken, w);
    AuthSendSpares(s, w);
    AuthSendSettles(s, w);
  }

  /** Handing over a one-shot reply. */
  lemma AnswerControl(s: Server, code: byte)
    requires Shape(s) && AuthShape(s) && Counters(s) && Past(s) && s.reply.NoReply?
    ensures var q := AnswerSimple(s, code); Shape(q) && AuthShape(q) && Counters(q)
  {
  }

  lemma SetupControl(p: World, ev: Event)
    requires Control(p) && Enabled(p, ev)
    requires ev.MakeSocket? || ev.DoConnect?
    ensures Control(Next(p, ev))
  {
    hide Parse, Pack;
    AnswerControl(p.srv, OP_FAILURE);
  }

  lemma ConnectedControl(p: World, code: byte, ok: bool, bind: Message)
    requires Control(p) && Enabled(p, ConnectResult(code, ok, bind))
    ensures Control(Next(p, ConnectResult(code, ok, bind)))
  {
    AnswerControl(p.srv, code);
  }

  lemma TfoControl(s: Server, o: RecvOutcome)
    requires Shape(s) && AuthShape(s) && Counters(s) && s.phase.ReadingTfo? && s.relay.ctl.Running?
    ensures var q := SrvTfo(s, o); Shape(q) && AuthShape(q) && Counters(q)
  {
    if s.relay.buf.Used() < s.tfoPayload {
      IoEffect(s.relay.buf, o, SendBroken);
      var io := SockRecv(s.relay.buf, o);
      if io.Bytes? {
      } else if s.phase == ReadingTfo(true) {
        AnswerControl(s, OP_FAILURE);
      }
    }
  }

  lemma ReadTfoControl(p: World, t: Take)
    requires Control(p) && Enabled(p, ReadTfo(t))
    ensures Control(Next(p, ReadTfo(t)))
  {
    TfoControl(p.srv, Answer(p.b, t));
    var q := Next(p, ReadTfo(t));
    assert q.c == p.c && q.e == p.e && !p.c.fin && !p.e.fin;
  }

  lemma RelayControl(p: World, ev: Event)
    requires Control(p) && Enabled(p, ev) && (ev.UpRecv? || ev.UpSend?)
    ensures Control(Next(p, ev))
  {
    if ev.UpRecv? {
      RecvKeeps(p.srv.relay, Answer(p.b, ev.t));
      TakeEffect(p.b, p.srv.relay.buf, ev.t);
    } else {
      SendKeeps(p.srv.relay, ev.w);
    }
  }

  lemma ReplyControl(p: World, ev: Event)
    requires Control(p) && Enabled(p, ev) && (ev.ReplyRecv? || ev.ReplySend?)
    ensures Control(Next(p, ev))
  {
    if ev.ReplyRecv? {
      RecvKeeps(p.srv.reply.out, Answer(p.d, ev.t));
      TakeEffect(p.d, p.srv.reply.out.buf, ev.t);
    } else {
      SendKeeps(p.srv.reply.out, ev.w);
    }
  }

  /** Everything else leaves the phases alone. */
  lemma RestControl(p: World, ev: Event)
    requires Control(p) && Enabled(p, ev)
    requires ev.ClientSend? || ev.ClientFin? || ev.ClientTake? || ev.RemoteSend? || ev.RemoteFin?
             || ev.Wakeup? || ev.AuthWakeup? || ev.ReplyWakeup? || ev.Gone? || ev.ReplyGone?
    ensures Control(Next(p, ev))
  {
    hide Parse, Pack, RecvStep, SendStep;
  }

  lemma NextControl(p: World, ev: Event)
    requires Control(p) && Enabled(p, ev)
    ensures Control(Next(p, ev))
  {
    hide Control, Next;
    match ev
    case ReadReq(t, a) => ReadReqControl(p, t, a);
    case AuthWrite(w) => AuthWriteControl(p, w);
    case MakeSocket(_) => SetupControl(p, ev);
    case DoConnect(_) => SetupControl(p, ev);
    case ConnectResult(code, ok, bind) => ConnectedControl(p, code, ok, bind);
    case ReadTfo(t) => ReadTfoControl(p, t);
    case UpRecv(_) => RelayControl(p, ev);
    case UpSend(_) => RelayControl(p, ev);
    case ReplyRecv(_) => ReplyControl(p, ev);
    case ReplySend(_) => ReplyControl(p, ev);
    case _ => RestControl(p, ev);
  }

  // ----- bytes from the client -----

  lemma InboundRead(p: World, q: World, t: Take)
    requires p.srv.relay.buf.Valid() && Inbound(p)
    requires q.b == After(p.b, p.srv.relay.buf, t) && q.c.sent == p.c.sent && q.srv.request == p.srv.request
    requires q.srv.relay.buf.data == p.srv.relay.buf.data + Gets(p.srv.relay.buf, Answer(p.b, t))
    requires p.srv.remote ==> q.srv.remote
    ensures Inbound(q)
  {
    var buf := p.srv.relay.buf;
    TakeEffect(p.b, buf, t);
    Regroup(RequestBytes(p.srv) + p.c.sent, buf.data, Gets(buf, Answer(p.b, t)));
  }

  lemma InboundWrite(p: World, q: World, out: seq<byte>)
    requires Inbound(p) && q.srv.remote
    requires q.b == p.b && q.c.sent == p.c.sent + out && q.srv.request == p.srv.request
    requires p.srv.relay.buf.data == out + q.srv.relay.buf.data
    ensures Inbound(q)
  {
    Regroup(RequestBytes(p.srv), p.c.sent, out);
    Regroup(RequestBytes(p.srv) + p.c.sent, out, q.srv.relay.buf.data);
  }

  /** The request leaves the buffer: what was read is the request followed by the rest. */
  lemma InboundParse(p: World, q: World)
    requires p.c.sent == [] && q.c.sent == [] && q.srv.request.Some? && TookRequest(q.srv, Read(q.b))
    ensures Inbound(q)
  {
    assert RequestBytes(q.srv) + [] == RequestBytes(q.srv);
  }

  /** What is read in S_READING_REQ stays in the buffer, or loses exactly the request at its front. */
  ghost predicate TookRequest(q: Server, data: seq<byte>) {
    if q.request.None? then q.relay.buf.data == data
    else data == Pack(q.request.value) + q.relay.buf.data
  }

  lemma ParseReqBytes(s: Server, a: Message)
    requires s.request.None?
    ensures TookRequest(SrvParseReq(s, a), s.relay.buf.data)
  {
    var data := s.relay.buf.data;
    if Parse(data).Parsed? {
      var n := Parse(data).used;
      assert data == data[..n] + data[n..];
      assert SrvParseReq(s, a).relay.buf.data == data[n..];
    }
  }

  lemma ReadReqBytes(s: Server, o: RecvOutcome, a: Message)
    requires s.relay.buf.Valid() && s.request.None?
    ensures TookRequest(SrvReadReq(s, o, a), s.relay.buf.data + Gets(s.relay.buf, o))
  {
    IoEffect(s.relay.buf, o, SendBroken);
    var io := SockRecv(s.relay.buf, o);
    if io.Bytes? && io.count > 0 {
      ParseReqBytes(s.(relay := s.relay.(buf := io.buf)), a);
    } else {
      assert Gets(s.relay.buf, o) == [];
    }
  }

  lemma ReadReqInbound(p: World, t: Take, a: Message)
    requires Control(p) && Inbound(p) && Enabled(p, ReadReq(t, a))
    ensures Inbound(Next(p, ReadReq(t, a)))
  {
    var s := p.srv;
    var o := Answer(p.b, t);
    var q := Next(p, ReadReq(t, a));
    assert q.srv == SrvReadReq(s, o, a) && q.b == After(p.b, s.relay.buf, t) && q.c == p.c;
    ReadReqBytes(s, o, a);
    if q.srv.request.None? {
      InboundRead(p, q, t);
    } else {
      TakeEffect(p.b, s.relay.buf, t);
      assert p.c.sent == [];
      assert Read(p.b) == s.relay.buf.data by { EmptySides(s.relay.buf.data); }
      InboundParse(p, q);
    }
  }

  lemma EmptySides(data: seq<byte>)
    ensures ([] + []) + data == data
  {
  }

  lemma RelayInbound(p: World, ev: Event)
    requires Control(p) && Inbound(p) && Enabled(p, ev) && (ev.UpRecv? || ev.UpSend?)
    ensures Inbound(Next(p, ev))
  {
    var s := p.srv;
    var q := Next(p, ev);
    if ev.UpRecv? {
      RecvKeeps(s.relay, Answer(p.b, ev.t));
      InboundRead(p, q, ev.t);
    } else {
      SendKeeps(s.relay, ev.w);
      InboundWrite(p, q, Puts(s.relay.buf, ev.w));
    }
  }

  lemma ReadTfoInbound(p: World, t: Take)
    requires Control(p) && Inbound(p) && Enabled(p, ReadTfo(t))
    ensures Inbound(Next(p, ReadTfo(t)))
  {
    IoEffect(p.srv.relay.buf, Answer(p.b, t), SendBroken);
    if p.srv.relay.buf.Used() < p.srv.tfoPayload {
      InboundRead(p, Next(p, ReadTfo(t)), t);
    }
  }

  lemma ConnectInbound(p: World, o: ConnectOutcome)
    requires Control(p) && Inbound(p) && Enabled(p, DoConnect(o))
    ensures Inbound(Next(p, DoConnect(o)))
  {
    hide Closing, Pack;
    if !o.ConnectFailed? {
      var s := p.srv;
      InboundWrite(p, Next(p, DoConnect(o)), s.relay.buf.data[..TfoCount(s.relay.buf, o, s.tfoPayload)]);
    }
  }

  /** What passes no bytes from the client on. */
  lemma RestInbound(p: World, ev: Event)
    requires Inbound(p) && Enabled(p, ev)
    requires !ev.ReadReq? && !ev.ReadTfo? && !ev.UpRecv? && !ev.UpSend? && !ev.DoConnect?
    ensures Inbound(Next(p, ev))
  {
    hide Pack, RecvStep, SendStep, Loaded, Settle, AuthSend;
    var q := Next(p, ev);
    assert Read(q.b) == Read(p.b) && q.c.sent == p.c.sent;
    assert q.srv.request == p.srv.request && q.srv.relay.buf == p.srv.relay.buf && (p.srv.remote ==> q.srv.remote) by {
      RestServer(p, ev);
    }
  }

  lemma RestServer(p: World, ev: Event)
    requires Enabled(p, ev)
    requires !ev.ReadReq? && !ev.ReadTfo? && !ev.UpRecv? && !ev.UpSend? && !ev.DoConnect?
    ensures var q := Next(p, ev).srv;
            q.request == p.srv.request && q.relay.buf == p.srv.relay.buf && (p.srv.remote ==> q.remote)
  {
    hide Pack, RecvStep, SendStep, Loaded, AuthSend;
    if ev.AuthWrite? {
      AuthSendSpares(p.srv, ev.w);
    }
  }

  lemma NextInbound(p: World, ev: Event)
    requires Control(p) && Inbound(p) && Enabled(p, ev)
    ensures Inbound(Next(p, ev))
  {
    hide Control, Inbound, Next;
    match ev
    case ReadReq(t, a) => ReadReqInbound(p, t, a);
    case ReadTfo(t) => ReadTfoInbound(p, t);
    case UpRecv(_) => RelayInbound(p, ev);
    case UpSend(_) => RelayInbound(p, ev);
    case DoConnect(o) => ConnectInbound(p, o);
    case _ => RestInbound(p, ev);
  }

  // ----- bytes to the client -----

  /** A downstreamer starts where the AuthServer left off. */
  lemma SpeakNext(e: seq<byte>, auth: seq<byte>, reply: seq<byte>)
    requires e == auth
    ensures e + ([] + reply) == (auth + reply) + []
  {
  }

  lemma OutboundAnswer(p: World, q: World)
    requires AuthShape(p.srv) && Outbound(p) && Past(p.srv) && p.srv.auth.Auth? && p.srv.reply.NoReply?
    requires q.srv.auth == p.srv.auth && q.e == p.e && q.d == p.d
    requires q.srv.reply.Simple? || q.srv.reply.Connect?
    requires q.srv.reply.out.buf.data == Pack(q.srv.reply.reply)
    ensures Outbound(q)
  {
    assert Unsent(p.srv) == [] && Spoken(p.srv) == Pack(p.srv.auth.reply) && Read(p.d) == [];
    SpeakNext(p.e.sent, Pack(p.srv.auth.reply), Pack(q.srv.reply.reply));
  }

  lemma OutboundSend(e: seq<byte>, out: seq<byte>, rest: seq<byte>, all: seq<byte>)
    requires e + (out + rest) == all
    ensures (e + out) + rest == all
  {
  }

  lemma AuthWriteOutbound(p: World, w: SendOutcome)
    requires Control(p) && Outbound(p) && Enabled(p, AuthWrite(w))
    ensures Outbound(Next(p, AuthWrite(w)))
  {
    hide AuthSend, Inv, Pack, Parse, Closing, Counters;
    var s := p.srv;
    var r := AuthSend(s, w);
    var q := Next(p, AuthWrite(w));
    assert s.phase.AwaitingAuth? && s.reply.NoReply?;
    IoEffect(s.auth.buf, RecvBroken, w);
    AuthSendSpares(s, w);
    AuthSendSettles(s, w);
    assert q.srv == r && q.d == p.d && q.e.sent == p.e.sent + Puts(s.auth.buf, w);
    assert Unsent(s) == s.auth.buf.data && Spoken(s) == Pack(s.auth.reply) && Read(p.d) == [];
    OutboundSend(p.e.sent, Puts(s.auth.buf, w), r.auth.buf.data, Pack(s.auth.reply));
    if r.reply.Simple? {
      SpeakNext(q.e.sent, Pack(s.auth.reply), Pack(r.reply.reply));
    } else {
      assert Unsent(r) == r.auth.buf.data && Spoken(r) == Pack(s.auth.reply);
    }
  }

  lemma ReplyOutbound(p: World, ev: Event)
    requires Control(p) && Outbound(p) && Enabled(p, ev) && (ev.ReplyRecv? || ev.ReplySend?)
    ensures Outbound(Next(p, ev))
  {
    var s := p.srv;
    var q := Next(p, ev);
    var buf := s.reply.out.buf;
    assert Unsent(s) == buf.data && Unsent(q.srv) == q.srv.reply.out.buf.data && Spoken(q.srv) == Spoken(s);
    if ev.ReplyRecv? {
      var o := Answer(p.d, ev.t);
      RecvKeeps(s.reply.out, o);
      TakeEffect(p.d, buf, ev.t);
      Regroup(p.e.sent, buf.data, Gets(buf, o));
      Regroup(Spoken(s), Read(p.d), Gets(buf, o));
    } else {
      SendKeeps(s.reply.out, ev.w);
      OutboundSend(p.e.sent, Puts(buf, ev.w), q.srv.reply.out.buf.data, Spoken(s) + Read(p.d));
    }
  }

  lemma SetupEffect(p: World, ev: Event)
    requires p.srv.reply.NoReply? && Enabled(p, ev) && (ev.MakeSocket? || ev.ReadTfo? || ev.DoConnect? || ev.ConnectResult?)
    ensures var q := Next(p, ev);
            && q.srv.auth == p.srv.auth && q.e == p.e && q.d == p.d && Past(q.srv)
            && (q.srv.reply.NoReply?
                || ((q.srv.reply.Simple? || q.srv.reply.Connect?) && q.srv.reply.out.buf.data == Pack(q.srv.reply.reply)))
  {
    hide Pack, Gets, TfoRest;
  }

  lemma SetupOutbound(p: World, ev: Event)
    requires Control(p) && Outbound(p) && Enabled(p, ev)
    requires ev.MakeSocket? || ev.ReadTfo? || ev.DoConnect? || ev.ConnectResult?
    ensures Outbound(Next(p, ev))
  {
    hide Pack, Next, Closing, Counters, Inv, Parse;
    SetupEffect(p, ev);
    var q := Next(p, ev);
    if !q.srv.reply.NoReply? {
      OutboundAnswer(p, q);
    }
  }

  /** Nothing new to say, and nothing said. */
  ghost predicate SameSpeech(s: Server, q: Server) {
    && Unsent(q) == Unsent(s) && Spoken(q) == Spoken(s) && (s.reply.Connect? ==> q.reply.Connect?)
    && (Past(q) ==> Past(s)) && (q.auth.Auth? ==> s.auth.Auth? && q.auth.reply == s.auth.reply)
  }

  predicate PassesNothing(ev: Event) {
    ev.ClientSend? || ev.ClientFin? || ev.ClientTake? || ev.RemoteSend? || ev.RemoteFin? || ev.UpRecv? || ev.UpSend?
    || ev.Wakeup? || ev.AuthWakeup? || ev.ReplyWakeup? || ev.Gone? || ev.ReplyGone?
  }

  lemma RestSpeech(p: World, ev: Event)
    requires Enabled(p, ev) && PassesNothing(ev)
    ensures SameSpeech(p.srv, Next(p, ev).srv)
  {
    hide Pack, RecvStep, SendStep;
  }

  lemma RestPipes(p: World, ev: Event)
    requires Enabled(p, ev) && PassesNothing(ev)
    ensures var q := Next(p, ev); q.e.sent == p.e.sent && q.d.taken == p.d.taken && Read(q.d) == Read(p.d)
  {
    hide Pack, RecvStep, SendStep, Gets, Answer;
  }

  /** What passes no bytes to the client on. */
  lemma RestOutbound(p: World, ev: Event)
    requires Outbound(p) && Enabled(p, ev) && PassesNothing(ev)
    ensures Outbound(Next(p, ev))
  {
    hide Pack, Next, Spoken, Unsent, Enabled;
    RestSpeech(p, ev);
    RestPipes(p, ev);
  }

  lemma NextOutbound(p: World, ev: Event)
    requires Control(p) && Outbound(p) && Enabled(p, ev)
    ensures Outbound(Next(p, ev))
  {
    hide Control, Outbound, Next;
    match ev
    case AuthWrite(w) => AuthWriteOutbound(p, w);
    case ReplyRecv(_) => ReplyOutbound(p, ev);
    case ReplySend(_) => ReplyOutbound(p, ev);
    case ReadReq(t, a) => ReadReqOutbound(p, t, a);
    case MakeSocket(_) => SetupOutbound(p, ev);
    case ReadTfo(_) => SetupOutbound(p, ev);
    case DoConnect(_) => SetupOutbound(p, ev);
    case ConnectResult(_, _, _) => SetupOutbound(p, ev);
    case _ => RestOutbound(p, ev);
  }

  lemma ReadReqOutbound(p: World, t: Take, a: Message)
    requires Control(p) && Outbound(p) && Enabled(p, ReadReq(t, a))
    ensures Outbound(Next(p, ReadReq(t, a)))
  {
    var q := Next(p, ReadReq(t, a));
    assert p.e.sent == [] && Read(p.d) == [];
    assert Spoken(q.srv) == Unsent(q.srv);
  }

  lemma NextKeeps(p: World, ev: Event)
    requires WorldInv(p)
    ensures WorldInv(Next(p, ev))
  {
    if Enabled(p, ev) {
      NextControl(p, ev);
      NextInbound(p, ev);
      NextOutbound(p, ev);
    }
  }

  lemma StableReplies(p: World, ev: Event)
    requires Control(p)
    ensures var q := Next(p, ev);
            && (p.srv.auth.Auth? ==> q.srv.auth.Auth? && q.srv.auth.reply == p.srv.auth.reply)
            && (p.srv.reply.Simple? ==> q.srv.reply.Simple? && q.srv.reply.reply == p.srv.reply.reply)
            && (p.srv.reply.Connect? ==> q.srv.reply.Connect? && q.srv.reply.reply == p.srv.reply.reply)
  {
    hide Pack, RecvStep, SendStep, Loaded, Settle, AuthSend, Inv, Parse, Counters, Closing, SockRecv, TfoRest;
    if Enabled(p, ev) && ev.AuthWrite? {
      assert p.srv.phase.AwaitingAuth?;
      AuthSendSpares(p.srv, ev.w);
    }
  }

  lemma StablePipes(p: World, ev: Event)
    requires Control(p)
    ensures var q := Next(p, ev);
            && (p.e.fin ==> q.e.fin && q.e.sent == p.e.sent)
            && (!ev.ClientTake? ==> q.e.taken == p.e.taken && Read(q.e) == Read(p.e))
            && (!ev.ClientSend? ==> q.b.sent == p.b.sent)
            && (!ev.ClientFin? ==> q.b.fin == p.b.fin)
  {
    hide Pack, RecvStep, SendStep, Loaded, Settle, AuthSend, Inv, Parse, Counters, Puts, SrvReadReq, SrvTfo, SrvConnected;
    if Enabled(p, ev) && ev.AuthWrite? {
      assert p.srv.phase.AwaitingAuth?;
    }
  }

  /** Replies are never replaced, a closed pipe carries nothing more, and only the client
      writes, closes or empties the client's ends. */
  lemma NextStable(p: World, ev: Event)
    requires Control(p)
    ensures var q := Next(p, ev);
            && (p.srv.auth.Auth? ==> q.srv.auth.Auth? && q.srv.auth.reply == p.srv.auth.reply)
            && (p.srv.reply.Simple? ==> q.srv.reply.Simple? && q.srv.reply.reply == p.srv.reply.reply)
            && (p.srv.reply.Connect? ==> q.srv.reply.Connect? && q.srv.reply.reply == p.srv.reply.reply)
            && (p.e.fin ==> q.e.fin && q.e.sent == p.e.sent)
            && (!ev.ClientTake? ==> q.e.taken == p.e.taken && Read(q.e) == Read(p.e))
            && (!ev.ClientSend? ==> q.b.sent == p.b.sent)
            && (!ev.ClientFin? ==> q.b.fin == p.b.fin)
  {
    hide Control, Next;
    StableReplies(p, ev);
    StablePipes(p, ev);
  }

  function Run(p: World, evs: seq<Event>): World
    decreases |evs|
  {
    if evs == [] then p else Run(Next(p, evs[0]), evs[1..])
  }

  lemma {:induction false} RunKeeps(p: World, evs: seq<Event>)
    requires WorldInv(p)
    ensures WorldInv(Run(p, evs))
    decreases |evs|
  {
    if evs == [] {
    } else {
      NextKeeps(p, evs[0]);
      RunKeeps(Next(p, evs[0]), evs[1..]);
    }
  }

  // ----- what a run of the proxy guarantees, whatever client and remote do -----

  /** Output order: what the client is sent is a prefix of the authentication reply, the
      operation reply and the remote's bytes, in this order; or of the version reply alone. */
  lemma ProxyOutputOrder(evs: seq<Event>)
    ensures var p := Run(NEW_WORLD, evs);
            var auth := if p.srv.auth.Auth? then Pack(p.srv.auth.reply) else [];
            match p.srv.reply
            case NoReply => p.e.sent <= auth
            case VersionReply(_) => p.e.sent <= [SOCKS6_VERSION]
            case Simple(m, _) => p.e.sent <= auth + Pack(m)
            case Connect(m, _) => p.e.sent <= auth + Pack(m) + Read(p.d)
  {
    RunKeeps(NEW_WORLD, evs);
    var p := Run(NEW_WORLD, evs);
    assert p.e.sent <= p.e.sent + Unsent(p.srv);
    if !p.srv.reply.Connect? {
      assert Spoken(p.srv) + Read(p.d) == Spoken(p.srv);
    }
  }

  /** Gating: the remote socket exists only once a successful authentication reply has been
      wholly handed to the client's socket; `authDone` runs at most once and at most one
      operation reply is ever started. */
  lemma ProxyGating(evs: seq<Event>)
    ensures var p := Run(NEW_WORLD, evs);
            && (p.srv.remote ==> p.srv.auth.Auth? && p.srv.auth.reply.code == AUTH_SUCCESS
                                 && Pack(p.srv.auth.reply) <= p.e.sent)
            && p.srv.authDones <= 1 && p.srv.opReplies <= 1
            && (p.c.sent != [] ==> p.srv.remote)
  {
    RunKeeps(NEW_WORLD, evs);
  }

  /** The request is stripped exactly: once it is parsed, what the client sent is that request,
      then what the remote was sent, then what is still on its way. */
  lemma ProxyStripsRequest(evs: seq<Event>)
    ensures var p := Run(NEW_WORLD, evs);
            p.srv.request.Some? ==>
              && Parse(p.b.sent) == Parsed(p.srv.request.value, |Pack(p.srv.request.value)|)
              && p.b.sent == Pack(p.srv.request.value) + p.c.sent + p.srv.relay.buf.data + p.b.sent[p.b.taken..]
  {
    RunKeeps(NEW_WORLD, evs);
    var p := Run(NEW_WORLD, evs);
    if p.srv.request.Some? {
      StrippedExactly(p.b, p.srv.request.value, p.c.sent, p.srv.relay.buf.data);
    }
  }

  lemma StrippedExactly(b: Pipe, m: Message, passed: seq<byte>, data: seq<byte>)
    requires Read(b) == Pack(m) + passed + data
    ensures Parse(b.sent) == Parsed(m, |Pack(m)|) && b.sent == Pack(m) + passed + data + b.sent[b.taken..]
  {
    assert b.sent == Read(b) + b.sent[b.taken..];
    assert Pack(m) <= Read(b);
    ParseIff(Read(b), m, |Pack(m)|);
    ParseStable(Read(b), b.sent[b.taken..]);
  }

  /** Room for any request of at most 17 KiB, however it is cut up: whenever the proxy is about
      to call `recv` on the client, it offers positive room. */
  lemma ProxyRoom(p: World, m: Message, rest: seq<byte>)
    requires WorldInv(p) && p.b.sent <= Pack(m) + rest && |Pack(m)| <= HEADROOM && p.srv.relay.ctl.Running?
    requires p.srv.phase.ReadingReq? || (p.srv.phase.ReadingTfo? && p.srv.relay.buf.Used() < p.srv.tfoPayload)
             || (p.srv.phase.Relaying? && p.srv.relay.mode.Receiving?)
    ensures p.srv.relay.buf.Avail() > 0
  {
    var data := p.srv.relay.buf.data;
    if p.srv.phase.ReadingReq? {
      assert p.c.sent == [];
      assert data == Read(p.b);
      assert data <= Pack(m) + rest;
      ParseOfStream(m, rest, data);
    } else if p.srv.phase.ReadingTfo? {
      var q := p.srv.request.value;
      assert Pack(q) <= Read(p.b);
      ParseIff(p.b.sent, q, |Pack(q)|);
      ParseOfStream(m, rest, p.b.sent);
    }
  }
}
