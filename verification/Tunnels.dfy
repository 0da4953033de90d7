/** The whole tunnel: one proxified connection, the proxy's connection at the other end, the
    application and the remote. Any enabled system call of any reactor may happen next, so a
    run is any interleaving, with any fragmentation, of all the parties' calls. */
module Tunnels {
  import opened Wrappers
  import opened Codec
  import opened Buffers
  import opened Logs
  import opened Relays
  import opened ProxifierReactors
  import opened ProxyReactors
  import opened ProxyWorlds

  /** Early data in the hands of TLS: it counts as delivered if and when the server takes it, and
      is settled once the client has learned that and dropped it from its buffer. */
  datatype Early = NoEarly | Pending(bytes: seq<byte>) | Taken(bytes: seq<byte>) | Settled(bytes: seq<byte>) | Refused

  /** `a`: application to proxifier, `f`: proxifier to application; the other pipes are in `p`.
      `cut`: the connection ended before the TLS handshake did. */
  datatype Tunnel = Tunnel(request: Message, a: Pipe, f: Pipe, up: Upstream, down: Option<Downstream>,
                           early: Early, cut: bool, broken: bool, p: World)

  function NewTunnel(request: Message, tls: bool): Tunnel {
    Tunnel(request, NEW_PIPE, NEW_PIPE, NewUpstream(tls), None, NoEarly, false, false, NEW_WORLD)
  }

  datatype Step =
    | AppSend(bytes: seq<byte>) | AppFin
    | StartRead(t: Take) | StartOpen(o: ConnectOutcome, maxPayload: nat, earlyData: bool)
    | UpWakeup | SoError(failed: bool) | SkipTls
    | EarlyWrite(w: SendOutcome) | Verdict(accepted: bool) | Handshake(h: ForceOutcome)
    | FirstSend(w: SendOutcome) | UpRelayRecv(t: Take) | UpRelaySend(w: SendOutcome) | UpVanish
    | DownWakeup | DownReply(t: Take) | DownRelayRecv(t: Take) | DownRelaySend(w: SendOutcome) | DownVanish
    | InProxy(ev: ProxyWorlds.Event)

  /** Nothing leaves through a connection whose handshake was never completed. */
  predicate Mute(w: SendOutcome) { w.Accepted? ==> w.n == 0 }

  /** What NSS may report at the end of a handshake: the verdict that was given, or, if the
      connection ended, possibly less. */
  predicate Reported(t: Tunnel, h: ForceOutcome) {
    match h
    case ForceDone(accepted) => !t.early.Pending? && (accepted <==> t.early.Taken?)
    case ForceEof(accepted) => accepted ==> t.early.Taken?
    case _ => true
  }

  /** Which step may happen next. The client learns the server's verdict on early data only
      after it was given; the proxy's client-side pipes are driven by the proxifier. */
  predicate Can(t: Tunnel, e: Step) {
    var run := t.up.relay.ctl.Running?;
    match e
    case AppSend(_) => !t.a.fin
    case StartRead(k) => run && t.up.phase.Fresh? && CanTake(t.a, k)
    case StartOpen(_, _, _) => run && t.up.phase.Opening?
    case SoError(_) => run && t.up.phase.Connecting?
    case SkipTls => run && t.up.phase.Handshaking? && (t.up.tls.NoTls? || t.up.tls.LaissezFaire?)
    case EarlyWrite(_) => run && t.up.phase.Handshaking? && t.up.tls.WantEarly?
    case Verdict(_) => t.early.Pending? && !t.p.b.fin
    case Handshake(h) => run && t.up.phase.Handshaking? && t.up.tls.WantHandshake?
                         && Reported(t, h)
    case FirstSend(w) => run && t.up.phase.SendingReq? && (t.cut ==> Mute(w))
    case UpRelayRecv(k) => run && t.up.phase.Streaming? && t.up.relay.mode.Receiving? && CanTake(t.a, k)
    case UpRelaySend(w) => run && t.up.phase.Streaming? && t.up.relay.mode.Sending? && (t.cut ==> Mute(w))
    case UpVanish => !Live(t.up.relay.ctl) && t.up.relay.dstOpen
    case DownReply(k) => t.down.Some? && t.down.value.relay.ctl.Running? && !t.down.value.phase.DownStream? && CanTake(t.p.e, k)
    case DownRelayRecv(k) => t.down.Some? && t.down.value.relay.ctl.Running? && t.down.value.phase.DownStream?
                             && t.down.value.relay.mode.Receiving? && CanTake(t.p.e, k)
    case DownRelaySend(_) => t.down.Some? && t.down.value.relay.ctl.Running? && t.down.value.phase.DownStream?
                             && t.down.value.relay.mode.Sending?
    case DownVanish => t.down.Some? && !Live(t.down.value.relay.ctl) && t.down.value.relay.dstOpen
    case InProxy(ev) => !ev.ClientSend? && !ev.ClientFin? && !ev.ClientTake?
    case _ => true
  }

  function ToProxy(p: World, bytes: seq<byte>): World { ProxyWorlds.Next(p, ClientSend(bytes)) }

  function CloseProxy(p: World, closing: bool): World { if closing then ProxyWorlds.Next(p, ClientFin) else p }

  function Took(p: World, b: Buf, k: Take): World { ProxyWorlds.Next(p, ClientTake(|Gets(b, Answer(p.e, k))|)) }

  function Do(t: Tunnel, e: Step): Tunnel {
    if !Can(t, e) then t else
    var up := t.up;
    var buf := up.relay.buf;
    match e
    case AppSend(x) => t.(a := Push(t.a, x))
    case AppFin => t.(a := Close(t.a, true))
    case StartRead(k) =>
      t.(up := UpRead(up, Answer(t.a, k), Pack(t.request)), a := After(t.a, buf, k), broken := t.broken || BadTake(k))
    case StartOpen(o, max, early) =>
      var sent := if up.tls.NoTls? && !o.ConnectFailed? then buf.data[..TfoCount(buf, o, max)] else [];
      t.(up := UpOpen(up, o, max, early), p := ToProxy(t.p, sent))
    case UpWakeup => t.(up := UpWake(up))
    case SoError(failed) => t.(up := UpCheck(up, failed))
    case SkipTls => t.(up := UpSkip(up))
    case EarlyWrite(w) =>
      var next := UpEarly(up, w);
      t.(up := next, early := if next.tls.WantHandshake? then Pending(buf.data[..EarlyCount(buf, w)]) else t.early)
    case Verdict(accepted) =>
      if accepted then t.(early := Taken(t.early.bytes), p := ToProxy(t.p, t.early.bytes)) else t.(early := Refused)
    case Handshake(h) =>
      t.(up := UpForce(up, h), cut := t.cut || h.ForceEof?,
         early := if (h.ForceDone? || h.ForceEof?) && h.accepted then Settled(t.early.bytes) else t.early)
    case FirstSend(w) =>
      var next := UpRequest(up, w);
      t.(up := next, p := ToProxy(t.p, if buf.Used() == 0 then [] else Puts(buf, w)),
         down := if next.phase.Streaming? then Some(NewDownstream()) else t.down)
    case UpRelayRecv(k) =>
      var relay := RecvStep(up.relay, Answer(t.a, k));
      t.(up := up.(relay := relay), a := After(t.a, buf, k), p := CloseProxy(t.p, !relay.dstOpen),
         broken := t.broken || BadTake(k))
    case UpRelaySend(w) =>
      var relay := SendStep(up.relay, w);
      t.(up := up.(relay := relay), p := CloseProxy(ToProxy(t.p, Puts(buf, w)), !relay.dstOpen),
         broken := t.broken || !relay.dstOpen)
    case UpVanish =>
      t.(up := up.(relay := Destroyed(up.relay)), p := CloseProxy(t.p, true), broken := true)
    case DownWakeup =>
      t.(down := if t.down.Some? then Some(t.down.value.(relay := Wake(t.down.value.relay))) else None)
    case DownReply(k) =>
      t.(down := Some(DownRead(t.down.value, Answer(t.p.e, k))), p := Took(t.p, t.down.value.relay.buf, k))
    case DownRelayRecv(k) =>
      var d := t.down.value;
      var relay := RecvStep(d.relay, Answer(t.p.e, k));
      t.(down := Some(d.(relay := relay)), p := Took(t.p, d.relay.buf, k), f := Close(t.f, !relay.dstOpen),
         broken := t.broken || BadTake(k))
    case DownRelaySend(w) =>
      var d := t.down.value;
      var relay := SendStep(d.relay, w);
      t.(down := Some(d.(relay := relay)), f := Close(Push(t.f, Puts(d.relay.buf, w)), !relay.dstOpen),
         broken := t.broken || !relay.dstOpen)
    case DownVanish =>
      var d := t.down.value;
      t.(down := Some(d.(relay := Destroyed(d.relay))), f := Close(t.f, true), broken := true)
    case InProxy(ev) => t.(p := ProxyWorlds.Next(t.p, ev))
  }

  // ----- upstream half -----

  /** What the upstreamer still has to send: its buffer, less early data the server has. */
  function Held(t: Tunnel): seq<byte> {
    var data := t.up.relay.buf.data;
    if t.early.Taken? && t.early.bytes <= data then data[|t.early.bytes|..] else data
  }

  ghost predicate UpControl(t: Tunnel) {
    var up := t.up;
    && up.relay.buf.Valid()
    && (Live(up.relay.ctl) ==> up.relay.dstOpen && up.relay.srcOpen)
    && (t.p.b.fin <==> !up.relay.dstOpen)
    && (up.phase.Fresh? ==> up.relay.buf == Buf(HEADROOM, []) && t.a.taken == 0)
    && (!up.phase.Fresh? && up.relay.buf.data == [] ==> up.relay.buf.head == 0)
    && (up.phase.Streaming? ==> Inv(up.relay))
    && (up.phase.Streaming? <==> t.down.Some?)
    && (!t.broken && t.p.b.fin ==> up.phase.Streaming? && AtEof(t.a) && up.relay.buf.data == [])
  }

  /** `earlyWritten` never exceeds what is buffered, and those bytes are the first buffered ones. */
  ghost predicate EarlyControl(t: Tunnel) {
    var up := t.up;
    && (up.tls.WantHandshake? ==> up.phase.Handshaking? && up.tls.early <= up.relay.buf.Used())
    && (t.early.Pending? || t.early.Taken? ==>
          && t.early.bytes <= up.relay.buf.data
          && (up.tls.WantHandshake? || t.cut)
          && (up.tls.WantHandshake? ==> |t.early.bytes| == up.tls.early))
    && (up.tls.WantEarly? ==> t.early.NoEarly?)
    && (up.phase.Fresh? || up.phase.Opening? ==> t.early.NoEarly? && !up.tls.LaissezFaire?)
    && (up.tls.NoTls? ==> t.early.NoEarly?)
    && (t.cut ==> up.tls.LaissezFaire?)
  }

  ghost predicate UpBytes(t: Tunnel) {
    if t.up.phase.Fresh? then t.p.b.sent == []
    else t.p.b.sent + Held(t) == Pack(t.request) + Read(t.a)
  }

  // ----- downstream half -----

  /** The two replies the downstreamer has taken off so far. */
  function Stripped(t: Tunnel): seq<byte> {
    if t.down.None? || t.down.value.phase.WaitAuth? then []
    else
      (if t.p.srv.auth.Auth? then Pack(t.p.srv.auth.reply) else []) +
      (if t.down.value.phase.DownStream? && (t.p.srv.reply.Simple? || t.p.srv.reply.Connect?)
       then Pack(t.p.srv.reply.reply) else [])
  }

  ghost predicate DownControl(t: Tunnel) {
    match t.down
    case None => t.p.e.taken == 0 && t.f.sent == [] && !t.f.fin
    case Some(d) =>
      && d.relay.buf.Valid()
      && (Live(d.relay.ctl) ==> d.relay.srcOpen && d.relay.dstOpen)
      && (t.f.fin <==> !d.relay.dstOpen)
      && (d.phase.WaitAuth? ==> d.relay.buf.head == 0)
      && (!d.phase.DownStream? ==> t.f.sent == [] && (Live(d.relay.ctl) ==> Parse(d.relay.buf.data).EndOfBuffer?))
      && (d.phase.WaitOp? ==> (t.p.srv.auth.Auth? && d.relay.buf.head <= |Pack(t.p.srv.auth.reply)|)
                              && (d.relay.buf.data == [] ==> d.relay.buf.head == 0))
      && (d.phase.DownStream? ==> t.p.srv.auth.Auth? && (t.p.srv.reply.Simple? || t.p.srv.reply.Connect?) && Inv(d.relay))
      && (!t.broken && t.f.fin ==> d.phase.DownStream? && AtEof(t.p.e) && d.relay.buf.data == [])
  }

  ghost predicate DownBytes(t: Tunnel) {
    t.down.Some? ==> Read(t.p.e) == Stripped(t) + t.f.sent + t.down.value.relay.buf.data
  }

  ghost predicate TunnelInv(t: Tunnel) {
    && 1 <= |Pack(t.request)| <= 255
    && WorldInv(t.p) && UpControl(t) && EarlyControl(t) && UpBytes(t) && DownControl(t) && DownBytes(t)
  }

  // ----- upstream steps -----

  /** What the upstreamer's steps leave alone. */
  ghost predicate DownUntouched(t: Tunnel, q: Tunnel) {
    && q.down == t.down && q.f == t.f && q.p.e == t.p.e && q.p.srv == t.p.srv && q.request == t.request
    && (t.broken ==> q.broken)
  }

  lemma DownFrame(t: Tunnel, q: Tunnel)
    requires DownControl(t) && DownBytes(t) && DownUntouched(t, q)
    ensures DownControl(q) && DownBytes(q)
  {
  }

  lemma StartReadKeeps(t: Tunnel, k: Take)
    requires TunnelInv(t) && Can(t, StartRead(k))
    ensures TunnelInv(Do(t, StartRead(k)))
  {
    hide WorldInv, DownControl, DownBytes;
    var q := Do(t, StartRead(k));
    var buf := t.up.relay.buf;
    var o := Answer(t.a, k);
    IoEffect(buf, o, SendBroken);
    TakeEffect(t.a, buf, k);
    DownFrame(t, q);
    var b := if SockRecv(buf, o).Bytes? then SockRecv(buf, o).buf else buf;
    assert b.data == Gets(buf, o) && b.head == HEADROOM;
    PrependExact(b, Pack(t.request));
    assert Read(q.a) == Gets(buf, o);
  }

  lemma TfoEffect(b: Buf, o: ConnectOutcome, max: nat)
    requires b.Valid() && (b.data == [] ==> b.head == 0)
    ensures var rest := TfoRest(b, o, max);
            && b.data[..TfoCount(b, o, max)] + rest.data == b.data && rest.Valid() && (rest.data == [] ==> rest.head == 0)
  {
  }

  /** What `sockConnect` sends and what it leaves. */
  lemma OpenEffect(up: Upstream, o: ConnectOutcome, max: nat, early: bool)
    requires up.relay.buf.Valid() && (up.relay.buf.data == [] ==> up.relay.buf.head == 0) && up.phase.Opening?
    ensures var next := UpOpen(up, o, max, early);
            var sent := if up.tls.NoTls? && !o.ConnectFailed? then up.relay.buf.data[..TfoCount(up.relay.buf, o, max)] else [];
            && sent + next.relay.buf.data == up.relay.buf.data
            && next.relay.buf.Valid() && (next.relay.buf.data == [] ==> next.relay.buf.head == 0)
            && next.relay.srcOpen == up.relay.srcOpen && next.relay.dstOpen == up.relay.dstOpen
            && (next.phase.Connecting? || next.phase.Opening?)
  {
    hide TfoRest, TfoCount;
    TfoEffect(up.relay.buf, o, max);
  }

  lemma StartOpenKeeps(t: Tunnel, o: ConnectOutcome, max: nat, early: bool)
    requires TunnelInv(t) && Can(t, StartOpen(o, max, early))
    ensures TunnelInv(Do(t, StartOpen(o, max, early)))
  {
    hide WorldInv, DownControl, DownBytes;
    var q := Do(t, StartOpen(o, max, early));
    var buf := t.up.relay.buf;
    var sent := if t.up.tls.NoTls? && !o.ConnectFailed? then buf.data[..TfoCount(buf, o, max)] else [];
    ProxyWorlds.NextKeeps(t.p, ClientSend(sent));
    OpenEffect(t.up, o, max, early);
    assert q == t.(up := UpOpen(t.up, o, max, early), p := t.p.(b := Push(t.p.b, sent)));
    DownFrame(t, q);
    UpBytesSent(t, q, sent);
  }

  lemma HandshakeKeeps(t: Tunnel, e: Step)
    requires TunnelInv(t) && Can(t, e)
    requires e.UpWakeup? || e.SoError? || e.SkipTls?
    ensures TunnelInv(Do(t, e))
  {
    hide WorldInv, DownControl, DownBytes, UpRead, UpOpen, UpForce, UpEarly, UpRequest;
    DownFrame(t, Do(t, e));
  }

  lemma EarlyWriteKeeps(t: Tunnel, w: SendOutcome)
    requires TunnelInv(t) && Can(t, EarlyWrite(w))
    ensures TunnelInv(Do(t, EarlyWrite(w)))
  {
    hide WorldInv, DownControl, DownBytes;
    DownFrame(t, Do(t, EarlyWrite(w)));
  }

  lemma AppKeeps(t: Tunnel, e: Step)
    requires TunnelInv(t) && Can(t, e) && (e.AppSend? || e.AppFin?)
    ensures TunnelInv(Do(t, e))
  {
    hide WorldInv, DownControl, DownBytes;
    DownFrame(t, Do(t, e));
    assert Read(Do(t, e).a) == Read(t.a);
  }

  lemma VerdictKeeps(t: Tunnel, accepted: bool)
    requires TunnelInv(t) && Can(t, Verdict(accepted))
    ensures TunnelInv(Do(t, Verdict(accepted)))
  {
    hide WorldInv, DownControl, DownBytes;
    var q := Do(t, Verdict(accepted));
    if accepted {
      ProxyWorlds.NextKeeps(t.p, ClientSend(t.early.bytes));
      var data := t.up.relay.buf.data;
      assert data == t.early.bytes + Held(q);
      Regroup(t.p.b.sent, t.early.bytes, Held(q));
    }
    DownFrame(t, q);
  }

  lemma ForceKeeps(t: Tunnel, h: ForceOutcome)
    requires TunnelInv(t) && Can(t, Handshake(h))
    ensures TunnelInv(Do(t, Handshake(h)))
  {
    hide WorldInv, DownControl, DownBytes;
    var q := Do(t, Handshake(h));
    DownFrame(t, q);
    if (h.ForceDone? || h.ForceEof?) && h.accepted {
      assert q.up.relay.buf.data == t.up.relay.buf.data[t.up.tls.early..];
    }
    assert Held(q) == Held(t);
  }

  /** Bytes leave the front of the upstreamer's buffer for the proxy. */
  lemma UpBytesSent(t: Tunnel, q: Tunnel, sent: seq<byte>)
    requires UpBytes(t) && !t.up.phase.Fresh? && !q.up.phase.Fresh? && q.request == t.request && q.a == t.a
    requires q.early == t.early && (t.early.Taken? ==> sent == [])
    requires q.p.b.sent == t.p.b.sent + sent && sent + q.up.relay.buf.data == t.up.relay.buf.data
    ensures UpBytes(q)
  {
    if t.early.Taken? {
      assert q.up.relay.buf.data == t.up.relay.buf.data && q.p.b.sent == t.p.b.sent;
    } else {
      Regroup(t.p.b.sent, sent, q.up.relay.buf.data);
    }
  }

  lemma FirstSendKeeps(t: Tunnel, w: SendOutcome)
    requires TunnelInv(t) && Can(t, FirstSend(w))
    ensures TunnelInv(Do(t, FirstSend(w)))
  {
    hide WorldInv;
    var q := Do(t, FirstSend(w));
    var buf := t.up.relay.buf;
    var sent := if buf.Used() == 0 then [] else Puts(buf, w);
    IoEffect(buf, RecvBroken, w);
    ProxyWorlds.NextKeeps(t.p, ClientSend(sent));
    UpBytesSent(t, q, sent);
    if !q.up.phase.Streaming? {
      DownFrame(t, q);
    }
  }

  lemma UpRelayRecvKeeps(t: Tunnel, k: Take)
    requires TunnelInv(t) && Can(t, UpRelayRecv(k))
    ensures TunnelInv(Do(t, UpRelayRecv(k)))
  {
    hide WorldInv, DownControl, DownBytes;
    var q := Do(t, UpRelayRecv(k));
    var buf := t.up.relay.buf;
    RecvKeeps(t.up.relay, Answer(t.a, k));
    TakeEffect(t.a, buf, k);
    ProxyWorlds.NextKeeps(t.p, ClientFin);
    DownFrame(t, q);
    assert Held(q) == Held(t) + Gets(buf, Answer(t.a, k));
    Regroup(t.p.b.sent, Held(t), Gets(buf, Answer(t.a, k)));
    Regroup(Pack(t.request), Read(t.a), Gets(buf, Answer(t.a, k)));
  }

  lemma UpRelaySendKeeps(t: Tunnel, w: SendOutcome)
    requires TunnelInv(t) && Can(t, UpRelaySend(w))
    ensures TunnelInv(Do(t, UpRelaySend(w)))
  {
    hide WorldInv, DownControl, DownBytes;
    var q := Do(t, UpRelaySend(w));
    var buf := t.up.relay.buf;
    SendKeeps(t.up.relay, w);
    ProxyWorlds.NextKeeps(t.p, ClientSend(Puts(buf, w)));
    ProxyWorlds.NextKeeps(ToProxy(t.p, Puts(buf, w)), ClientFin);
    DownFrame(t, q);
    UpBytesSent(t, q, Puts(buf, w));
  }

  lemma UpVanishKeeps(t: Tunnel)
    requires TunnelInv(t) && Can(t, UpVanish)
    ensures TunnelInv(Do(t, UpVanish))
  {
    hide WorldInv, DownControl, DownBytes;
    ProxyWorlds.NextKeeps(t.p, ClientFin);
    DownFrame(t, Do(t, UpVanish));
  }

  // ----- downstream steps -----

  /** What the downstreamer's and the proxy's steps leave alone. */
  lemma UpFrame(t: Tunnel, q: Tunnel)
    requires UpControl(t) && EarlyControl(t) && UpBytes(t)
    requires q.up == t.up && q.early == t.early && q.cut == t.cut && q.a == t.a && q.request == t.request
    requires q.p.b.sent == t.p.b.sent && q.p.b.fin == t.p.b.fin
    requires t.broken ==> q.broken
    requires t.down.Some? <==> q.down.Some?
    ensures UpControl(q) && EarlyControl(q) && UpBytes(q)
  {
  }

  /** The replies as they appear to the reader of the proxy's output. */
  lemma StreamStart(t: Tunnel)
    requires WorldInv(t.p)
    ensures t.p.srv.auth.Auth? ==> Read(t.p.e) <= Spoken(t.p.srv) + Read(t.p.d)
    ensures t.p.srv.auth.NoAuth? ==> Read(t.p.e) <= [SOCKS6_VERSION]
  {
    assert Read(t.p.e) <= t.p.e.sent <= t.p.e.sent + Unsent(t.p.srv);
  }

  /** The proxifier's half of the invariant only looks at stable parts of the proxy. */
  lemma ProxyFrame(t: Tunnel, p: World)
    requires TunnelInv(t) && WorldInv(p)
    requires p.b.sent == t.p.b.sent && p.b.fin == t.p.b.fin
    requires p.e.taken == t.p.e.taken && Read(p.e) == Read(t.p.e)
    requires t.p.e.fin ==> p.e.fin && p.e.sent == t.p.e.sent
    requires t.p.srv.auth.Auth? ==> p.srv.auth.Auth? && p.srv.auth.reply == t.p.srv.auth.reply
    requires t.p.srv.reply.Simple? ==> p.srv.reply.Simple? && p.srv.reply.reply == t.p.srv.reply.reply
    requires t.p.srv.reply.Connect? ==> p.srv.reply.Connect? && p.srv.reply.reply == t.p.srv.reply.reply
    ensures TunnelInv(t.(p := p))
  {
    var q := t.(p := p);
    UpFrame(t, q);
    assert t.down.Some? ==> Stripped(q) == Stripped(t);
  }

  lemma InProxyKeeps(t: Tunnel, ev: ProxyWorlds.Event)
    requires TunnelInv(t) && Can(t, InProxy(ev))
    ensures TunnelInv(Do(t, InProxy(ev)))
  {
    ProxyWorlds.NextKeeps(t.p, ev);
    NextStable(t.p, ev);
    ProxyFrame(t, ProxyWorlds.Next(t.p, ev));
  }

  /** A read of the proxy's output, as the downstreamer sees it. */
  lemma TookEffect(p: World, b: Buf, k: Take)
    requires WorldInv(p) && b.Valid()
    ensures WorldInv(Took(p, b, k))
    ensures Took(p, b, k) == p.(e := After(p.e, b, k))
    ensures Read(Took(p, b, k).e) == Read(p.e) + Gets(b, Answer(p.e, k))
  {
    ProxyWorlds.NextKeeps(p, ClientTake(|Gets(b, Answer(p.e, k))|));
    TakeEffect(p.e, b, k);
  }

  /** Taking the authentication reply off the front of what was read. */
  lemma DownAuthExact(t: Tunnel, data: seq<byte>)
    requires WorldInv(t.p) && data == Read(t.p.e) && Parse(data).Parsed?
    ensures t.p.srv.auth.Auth? && Parse(data) == Parsed(t.p.srv.auth.reply, |Pack(t.p.srv.auth.reply)|)
  {
    StreamStart(t);
    if t.p.srv.auth.Auth? {
      var m := t.p.srv.auth.reply;
      var rest := (Spoken(t.p.srv) + Read(t.p.d))[|Pack(m)|..];
      assert Spoken(t.p.srv) + Read(t.p.d) == Pack(m) + rest;
      ParseOfStream(m, rest, data);
    }
  }

  lemma AfterPrefix(a: seq<byte>, data: seq<byte>, rest: seq<byte>)
    requires a + data <= a + rest
    ensures data <= rest
  {
    assert (a + data)[|a|..] == data && (a + rest)[|a|..] == rest;
  }

  /** What follows the authentication reply is the operation reply and the remote's bytes. */
  lemma AfterAuthReply(t: Tunnel, data: seq<byte>)
    requires WorldInv(t.p) && t.p.srv.auth.Auth? && Pack(t.p.srv.auth.reply) + data == Read(t.p.e)
    ensures if t.p.srv.reply.NoReply? then data == []
            else !t.p.srv.reply.VersionReply? && data <= Pack(t.p.srv.reply.reply) + Read(t.p.d)
  {
    StreamStart(t);
    var a := Pack(t.p.srv.auth.reply);
    var all := Spoken(t.p.srv) + Read(t.p.d);
    if t.p.srv.reply.NoReply? {
      assert all == a;
    } else {
      var rest := Pack(t.p.srv.reply.reply) + Read(t.p.d);
      assert all == a + rest;
      AfterPrefix(a, data, rest);
    }
  }

  /** Taking the operation reply off what follows it. */
  lemma DownOpExact(t: Tunnel, data: seq<byte>)
    requires WorldInv(t.p) && t.p.srv.auth.Auth? && Pack(t.p.srv.auth.reply) + data == Read(t.p.e) && Parse(data).Parsed?
    ensures t.p.srv.reply.Simple? || t.p.srv.reply.Connect?
    ensures Parse(data) == Parsed(t.p.srv.reply.reply, |Pack(t.p.srv.reply.reply)|)
  {
    AfterAuthReply(t, data);
    ParseOfStream(t.p.srv.reply.reply, Read(t.p.d), data);
  }

  /** The state of a downstreamer between a read and the attempt to parse a reply. */
  ghost predicate JustRead(u: Tunnel, d: Downstream) {
    && WorldInv(u.p) && u.f.sent == [] && !u.f.fin
    && d.relay.ctl.Running? && d.relay.srcOpen && d.relay.dstOpen && d.relay.buf.Valid()
  }

  lemma DownOpKeeps(u: Tunnel, d: Downstream)
    requires JustRead(u, d) && d.phase.WaitOp? && u.p.srv.auth.Auth?
    requires d.relay.buf.head <= |Pack(u.p.srv.auth.reply)| && (d.relay.buf.data == [] ==> d.relay.buf.head == 0)
    requires Read(u.p.e) == Pack(u.p.srv.auth.reply) + d.relay.buf.data
    ensures var q := u.(down := Some(DownOp(d))); DownControl(q) && DownBytes(q)
  {
    hide WorldInv, Pack, Parse;
    var q := u.(down := Some(DownOp(d)));
    var data := d.relay.buf.data;
    var a := Pack(u.p.srv.auth.reply);
    if Parse(data).Parsed? && Parse(data).message.code == OP_SUCCESS {
      DownOpExact(u, data);
      var n := Parse(data).used;
      var rest := q.down.value.relay.buf.data;
      assert data == data[..n] + rest;
      Regroup(a, data[..n], rest);
      assert Stripped(q) + q.f.sent == a + data[..n];
    } else {
      assert Stripped(q) + q.f.sent == a;
    }
  }

  lemma DownAuthKeeps(u: Tunnel, d: Downstream)
    requires JustRead(u, d) && d.phase.WaitAuth? && d.relay.buf.head == 0 && Read(u.p.e) == d.relay.buf.data
    ensures var q := u.(down := Some(DownAuth(d))); DownControl(q) && DownBytes(q)
  {
    hide WorldInv, Pack, Parse, DownOp;
    var data := d.relay.buf.data;
    if Parse(data).Parsed? && Parse(data).message.code == AUTH_SUCCESS {
      DownAuthExact(u, data);
      var n := Parse(data).used;
      var next := d.(phase := WaitOp, relay := d.relay.(buf := d.relay.buf.Unuse(n)));
      assert data == data[..n] + next.relay.buf.data;
      DownOpKeeps(u, next);
    }
  }

  /** A read that brought nothing. */
  lemma DownNothingKeeps(t: Tunnel, u: Tunnel, o: RecvOutcome)
    requires DownControl(t) && DownBytes(t) && t.down.Some? && !t.down.value.phase.DownStream? && t.down.value.relay.ctl.Running?
    requires u == t.(p := u.p) && u.p.srv == t.p.srv && Read(u.p.e) == Read(t.p.e)
    requires var io := SockRecv(t.down.value.relay.buf, o); io.Bytes? ==> io.count == 0
    ensures var q := u.(down := Some(DownRead(t.down.value, o))); DownControl(q) && DownBytes(q)
  {
    var q := u.(down := Some(DownRead(t.down.value, o)));
    assert Stripped(q) == Stripped(t);
  }

  lemma DownSomethingKeeps(t: Tunnel, u: Tunnel, o: RecvOutcome)
    requires DownControl(t) && DownBytes(t) && t.down.Some? && !t.down.value.phase.DownStream? && t.down.value.relay.ctl.Running?
    requires u == t.(p := u.p) && u.p.srv == t.p.srv && WorldInv(u.p)
    requires Read(u.p.e) == Read(t.p.e) + Gets(t.down.value.relay.buf, o)
    requires var io := SockRecv(t.down.value.relay.buf, o); io.Bytes? && io.count > 0
    ensures var q := u.(down := Some(DownRead(t.down.value, o))); DownControl(q) && DownBytes(q)
  {
    var d := t.down.value;
    var buf := d.relay.buf;
    IoEffect(buf, o, SendBroken);
    var read := d.(relay := d.relay.(buf := SockRecv(buf, o).buf));
    if d.phase.WaitAuth? {
      DownAuthKeeps(u, read);
    } else {
      assert Stripped(t) + t.f.sent == Pack(t.p.srv.auth.reply);
      Regroup(Pack(t.p.srv.auth.reply), buf.data, Gets(buf, o));
      DownOpKeeps(u, read);
    }
  }

  lemma DownReplyKeeps(t: Tunnel, k: Take)
    requires TunnelInv(t) && Can(t, DownReply(k))
    ensures TunnelInv(Do(t, DownReply(k)))
  {
    hide WorldInv, UpControl, EarlyControl, UpBytes, DownRead, Stripped;
    var buf := t.down.value.relay.buf;
    var o := Answer(t.p.e, k);
    TookEffect(t.p, buf, k);
    IoEffect(buf, o, SendBroken);
    var u := t.(p := Took(t.p, buf, k));
    var q := u.(down := Some(DownRead(t.down.value, o)));
    assert Do(t, DownReply(k)) == q;
    UpFrame(t, q);
    if SockRecv(buf, o).Bytes? && SockRecv(buf, o).count > 0 {
      DownSomethingKeeps(t, u, o);
    } else {
      assert Read(t.p.e) + [] == Read(t.p.e);
      DownNothingKeeps(t, u, o);
    }
  }

  lemma DownRelayRecvKeeps(t: Tunnel, k: Take)
    requires TunnelInv(t) && Can(t, DownRelayRecv(k))
    ensures TunnelInv(Do(t, DownRelayRecv(k)))
  {
    hide WorldInv, UpControl, EarlyControl, UpBytes;
    var d := t.down.value;
    var q := Do(t, DownRelayRecv(k));
    TookEffect(t.p, d.relay.buf, k);
    TakeEffect(t.p.e, d.relay.buf, k);
    RecvKeeps(d.relay, Answer(t.p.e, k));
    UpFrame(t, q);
    Regroup(Stripped(t) + t.f.sent, d.relay.buf.data, Gets(d.relay.buf, Answer(t.p.e, k)));
  }

  lemma DownRelaySendKeeps(t: Tunnel, w: SendOutcome)
    requires TunnelInv(t) && Can(t, DownRelaySend(w))
    ensures TunnelInv(Do(t, DownRelaySend(w)))
  {
    hide WorldInv, UpControl, EarlyControl, UpBytes;
    var d := t.down.value;
    var q := Do(t, DownRelaySend(w));
    SendKeeps(d.relay, w);
    UpFrame(t, q);
    Regroup(Stripped(t), t.f.sent, Puts(d.relay.buf, w));
    Regroup(Stripped(t) + t.f.sent, Puts(d.relay.buf, w), q.down.value.relay.buf.data);
  }

  lemma DownRestKeeps(t: Tunnel, e: Step)
    requires TunnelInv(t) && Can(t, e) && (e.DownWakeup? || e.DownVanish?)
    ensures TunnelInv(Do(t, e))
  {
    hide WorldInv, UpControl, EarlyControl, UpBytes;
    UpFrame(t, Do(t, e));
  }

  predicate Downward(e: Step) {
    e.DownWakeup? || e.DownReply? || e.DownRelayRecv? || e.DownRelaySend? || e.DownVanish?
  }

  lemma UpStepKeeps(t: Tunnel, e: Step)
    requires TunnelInv(t) && Can(t, e) && !Downward(e) && !e.InProxy?
    ensures TunnelInv(Do(t, e))
  {
    hide TunnelInv, Do;
    match e
    case StartRead(k) => StartReadKeeps(t, k);
    case StartOpen(o, max, early) => StartOpenKeeps(t, o, max, early);
    case Verdict(accepted) => VerdictKeeps(t, accepted);
    case Handshake(h) => ForceKeeps(t, h);
    case FirstSend(w) => FirstSendKeeps(t, w);
    case UpRelayRecv(k) => UpRelayRecvKeeps(t, k);
    case UpRelaySend(w) => UpRelaySendKeeps(t, w);
    case UpVanish => UpVanishKeeps(t);
    case AppSend(_) => AppKeeps(t, e);
    case AppFin => AppKeeps(t, e);
    case EarlyWrite(w) => EarlyWriteKeeps(t, w);
    case _ => HandshakeKeeps(t, e);
  }

  lemma DownStepKeeps(t: Tunnel, e: Step)
    requires TunnelInv(t) && Can(t, e) && Downward(e)
    ensures TunnelInv(Do(t, e))
  {
    hide TunnelInv, Do;
    match e
    case DownReply(k) => DownReplyKeeps(t, k);
    case DownRelayRecv(k) => DownRelayRecvKeeps(t, k);
    case DownRelaySend(w) => DownRelaySendKeeps(t, w);
    case _ => DownRestKeeps(t, e);
  }

  lemma DoRequest(t: Tunnel, e: Step)
    ensures Do(t, e).request == t.request && (!Can(t, e) ==> Do(t, e) == t)
  {
    hide Can, RecvStep, SendStep, UpRead, UpOpen, UpEarly, UpForce, UpRequest, DownRead, After, Gets, Puts;
  }

  lemma DoKeeps(t: Tunnel, e: Step)
    requires TunnelInv(t)
    ensures TunnelInv(Do(t, e)) && Do(t, e).request == t.request
  {
    hide TunnelInv, Do;
    DoRequest(t, e);
    if Can(t, e) {
      if Downward(e) {
        DownStepKeeps(t, e);
      } else if e.InProxy? {
        InProxyKeeps(t, e.ev);
      } else {
        UpStepKeeps(t, e);
      }
    }
  }

  /** What the client does to its two pipes leaves the rest alone. */
  lemma ClientSpares()
    ensures forall p: World, x: seq<byte> :: ClientOnly(p, ProxyWorlds.Next(p, ClientSend(x)))
    ensures forall p: World :: ClientOnly(p, ProxyWorlds.Next(p, ClientFin))
    ensures forall p: World, k: nat :: ClientOnly(p, ProxyWorlds.Next(p, ClientTake(k)))
  {
  }

  ghost predicate ClientOnly(p: World, q: World) { q.srv == p.srv && q.c == p.c && q.e.sent == p.e.sent && q.e.fin == p.e.fin }

  /** Only the proxy's own events touch its reactors and what they write. */
  lemma ProxyUntouched(t: Tunnel, e: Step)
    requires !e.InProxy?
    ensures Do(t, e).p.srv == t.p.srv && Do(t, e).p.c == t.p.c && Do(t, e).p.e.sent == t.p.e.sent && Do(t, e).p.e.fin == t.p.e.fin
  {
    hide ProxyWorlds.Next, Can, RecvStep, SendStep, Destroyed, Wake, UpRead, UpOpen, UpEarly, UpForce, UpRequest, UpCheck, UpSkip, DownRead,
      NewDownstream, Gets, Puts, Answer;
    ClientSpares();
  }

  // ----- whole runs -----

  function Run(t: Tunnel, es: seq<Step>): Tunnel
    decreases |es|
  {
    if es == [] then t else Run(Do(t, es[0]), es[1..])
  }

  lemma {:induction false} RunKeeps(t: Tunnel, es: seq<Step>)
    requires TunnelInv(t)
    ensures TunnelInv(Run(t, es)) && Run(t, es).request == t.request
    decreases |es|
  {
    if es == [] {
    } else {
      DoKeeps(t, es[0]);
      RunKeeps(Do(t, es[0]), es[1..]);
    }
  }

  lemma Reachable(request: Message, tls: bool, es: seq<Step>) returns (t: Tunnel)
    requires |Pack(request)| <= 255
    ensures t == Run(NewTunnel(request, tls), es) && TunnelInv(t) && t.request == request
  {
    StartKeeps();
    assert TunnelInv(NewTunnel(request, tls));
    RunKeeps(NewTunnel(request, tls), es);
    t := Run(NewTunnel(request, tls), es);
  }

  lemma Cancel(x: seq<byte>, y: seq<byte>, z: seq<byte>)
    requires x + y == x + z
    ensures y == z
  {
    assert (x + y)[|x|..] == y && (x + z)[|x|..] == z;
  }

  /** The request the proxy parses is the one the proxifier made. */
  lemma SameRequest(t: Tunnel)
    requires TunnelInv(t) && t.p.srv.request.Some?
    ensures t.p.srv.request.value == t.request && !t.up.phase.Fresh?
  {
    var q := t.p.srv.request.value;
    assert Pack(q) <= Read(t.p.b) <= t.p.b.sent;
    ParseIff(t.p.b.sent, q, |Pack(q)|);
    assert t.p.b.sent <= Pack(t.request) + Read(t.a);
    ParseOfStream(t.request, Read(t.a), t.p.b.sent);
  }

  lemma Locate(r: seq<byte>, c: seq<byte>, data: seq<byte>, flight: seq<byte>, held: seq<byte>, read: seq<byte>)
    requires ((r + c + data) + flight) + held == r + read
    ensures c + data + flight + held == read
  {
    assert ((r + c + data) + flight) + held == r + (c + data + flight + held);
    Cancel(r, c + data + flight + held, read);
  }

  /** Where every byte read from the application is: at the remote, in the proxy's buffer, on
      the wire, or still held by the proxifier; in this order. */
  lemma EveryByte(t: Tunnel)
    requires TunnelInv(t) && t.p.srv.request.Some?
    ensures t.p.c.sent + t.p.srv.relay.buf.data + t.p.b.sent[t.p.b.taken..] + Held(t) == Read(t.a)
  {
    SameRequest(t);
    var flight := t.p.b.sent[t.p.b.taken..];
    assert t.p.b.sent == Read(t.p.b) + flight;
    Locate(Pack(t.request), t.p.c.sent, t.p.srv.relay.buf.data, flight, Held(t), Read(t.a));
  }

  /** Where every byte read from the remote is: at the application, in the downstreamer's buffer,
      on the wire, or still in the proxy's buffer; in this order. */
  lemma EveryByteBack(t: Tunnel)
    requires TunnelInv(t) && t.down.Some? && t.down.value.phase.DownStream?
    ensures t.f.sent + t.down.value.relay.buf.data + t.p.e.sent[t.p.e.taken..] + Unsent(t.p.srv) == Read(t.p.d)
  {
    var flight := t.p.e.sent[t.p.e.taken..];
    assert t.p.e.sent == Read(t.p.e) + flight;
    assert Stripped(t) == Spoken(t.p.srv);
    Locate(Stripped(t), t.f.sent, t.down.value.relay.buf.data, flight, Unsent(t.p.srv), Read(t.p.d));
  }

  /** End-to-end transparency. Whatever the interleaving and the fragmentation, with or without
      TFO and early data: the remote has been sent a prefix of what the application wrote, and
      the application a prefix of what the remote wrote; the request arrives unaltered, and it
      and both replies are stripped exactly. */
  lemma Transparency(request: Message, tls: bool, es: seq<Step>)
    requires |Pack(request)| <= 255
    ensures var t := Run(NewTunnel(request, tls), es);
            && t.p.c.sent <= t.a.sent
            && t.f.sent <= t.p.d.sent
            && (t.p.srv.request.Some? ==> t.p.srv.request.value == request)
  {
    var t := Reachable(request, tls, es);
    if t.p.srv.request.Some? {
      SameRequest(t);
      EveryByte(t);
      assert t.p.c.sent <= Read(t.a);
    }
    if t.f.sent != [] {
      StreamStart(t);
      var x := Stripped(t);
      assert x == Spoken(t.p.srv);
      assert x + t.f.sent <= Read(t.p.e);
      assert x + t.f.sent <= x + Read(t.p.d);
      assert (x + t.f.sent)[|x|..] <= (x + Read(t.p.d))[|x|..];
    }
  }

  lemma CloseForth(t: Tunnel)
    requires TunnelInv(t) && !t.broken && !t.p.broken && t.p.c.fin
    ensures t.a.fin && t.p.c.sent == t.a.sent
  {
    hide Pack, DownControl, DownBytes, EarlyControl, UpBytes, Outbound, Counters;
    EveryByte(t);
    assert t.p.b.sent[t.p.b.taken..] == [] && t.p.srv.relay.buf.data == [];
    assert t.p.b.fin && AtEof(t.a) && t.up.relay.buf.data == [];
    assert Held(t) == [];
    assert t.p.c.sent + [] + [] + [] == t.p.c.sent;
  }

  lemma CloseBack(t: Tunnel)
    requires TunnelInv(t) && !t.broken && !t.p.broken && t.f.fin
    ensures t.p.d.fin && t.f.sent == t.p.d.sent
  {
    hide Pack, UpControl, UpBytes, EarlyControl, Inbound, Counters;
    EveryByteBack(t);
    assert t.p.e.sent[t.p.e.taken..] == [] && t.down.value.relay.buf.data == [];
    assert t.p.e.fin && AtEof(t.p.d) && Unsent(t.p.srv) == [];
    assert t.f.sent + [] + [] + [] == t.f.sent;
  }

  /** Graceful close, end to end: as long as no reactor gave up for another reason, the
      remote's stream ends only after the application's did, with every byte delivered; and
      the same the other way. */
  lemma GracefulClose(request: Message, tls: bool, es: seq<Step>)
    requires |Pack(request)| <= 255
    ensures var t := Run(NewTunnel(request, tls), es);
            !t.broken && !t.p.broken ==>
              && (t.p.c.fin ==> t.a.fin && t.p.c.sent == t.a.sent)
              && (t.f.fin ==> t.p.d.fin && t.f.sent == t.p.d.sent)
  {
    hide TunnelInv;
    var t := Reachable(request, tls, es);
    if !t.broken && !t.p.broken {
      if t.p.c.fin {
        CloseForth(t);
      }
      if t.f.fin {
        CloseBack(t);
      }
    }
  }

  /** Early data, exactly once: however the server decides, however often the handshake is
      rescheduled and even if the connection ends in the middle of it, what was delivered
      followed by what is still to be sent is the request followed by all the application data
      read; what is still to be sent is the buffer, unless the connection ended before the client
      learned the verdict; and `earlyWritten` never exceeds the buffered size. */
  lemma EarlyDataOnce(request: Message, tls: bool, es: seq<Step>)
    requires |Pack(request)| <= 255
    ensures var t := Run(NewTunnel(request, tls), es);
            && (t.up.tls.WantHandshake? ==> t.up.tls.early <= t.up.relay.buf.Used())
            && (!t.up.phase.Fresh? ==> t.p.b.sent + Held(t) == Pack(request) + Read(t.a))
            && (t.up.phase.SendingReq? || t.up.phase.Streaming? ==>
                  Held(t) == t.up.relay.buf.data || (t.cut && t.early.Taken?))
  {
    var t := Reachable(request, tls, es);
  }

  /** Room for every message: in every state in which some reactor is about to call `recv`, it
      offers positive room, so a zero answer is never "the buffer is full". */
  lemma RoomForEveryMessage(request: Message, tls: bool, es: seq<Step>)
    requires |Pack(request)| <= 255
    ensures var t := Run(NewTunnel(request, tls), es);
            && (t.up.relay.ctl.Running? && (t.up.phase.Fresh? || (t.up.phase.Streaming? && t.up.relay.mode.Receiving?))
                ==> t.up.relay.buf.Avail() > 0)
            && (t.down.Some? && t.down.value.relay.ctl.Running?
                && (!t.down.value.phase.DownStream? || t.down.value.relay.mode.Receiving?)
                ==> t.down.value.relay.buf.Avail() > 0)
            && (t.p.srv.relay.ctl.Running?
                && (t.p.srv.phase.ReadingReq? || (t.p.srv.phase.Relaying? && t.p.srv.relay.mode.Receiving?)
                    || (t.p.srv.phase.ReadingTfo? && t.p.srv.relay.buf.Used() < t.p.srv.tfoPayload))
                ==> t.p.srv.relay.buf.Avail() > 0)
  {
    var t := Reachable(request, tls, es);
    if t.p.srv.relay.ctl.Running? {
      ServerRoom(t);
    }
    if t.down.Some? && t.down.value.relay.ctl.Running? && !t.down.value.phase.DownStream? {
      DownRoom(t);
    }
  }

  lemma ServerRoom(t: Tunnel)
    requires TunnelInv(t) && t.p.srv.relay.ctl.Running?
    ensures t.p.srv.phase.ReadingReq? || (t.p.srv.phase.Relaying? && t.p.srv.relay.mode.Receiving?)
            || (t.p.srv.phase.ReadingTfo? && t.p.srv.relay.buf.Used() < t.p.srv.tfoPayload)
            ==> t.p.srv.relay.buf.Avail() > 0
  {
    if t.p.srv.phase.ReadingReq? || (t.p.srv.phase.Relaying? && t.p.srv.relay.mode.Receiving?)
       || (t.p.srv.phase.ReadingTfo? && t.p.srv.relay.buf.Used() < t.p.srv.tfoPayload)
    {
      assert t.p.b.sent <= Pack(t.request) + Read(t.a);
      ProxyRoom(t.p, t.request, Read(t.a));
    }
  }

  /** A message of at most 17 KiB that has not wholly arrived leaves room for more. */
  lemma RoomForRest(b: Buf, m: Message, rest: seq<byte>)
    requires b.data <= Pack(m) + rest && Parse(b.data).EndOfBuffer? && b.head <= HEADROOM && |Pack(m)| <= HEADROOM
    ensures b.Avail() > 0
  {
    ParseOfStream(m, rest, b.data);
  }

  lemma DownRoomAuth(t: Tunnel, buf: Buf)
    requires WorldInv(t.p) && Parse(buf.data).EndOfBuffer? && Read(t.p.e) == buf.data && buf.head == 0
    ensures buf.Avail() > 0
  {
    StreamStart(t);
    if t.p.srv.auth.Auth? {
      var a := Pack(t.p.srv.auth.reply);
      var all := Spoken(t.p.srv) + Read(t.p.d);
      assert all == a + all[|a|..];
      RoomForRest(buf, t.p.srv.auth.reply, all[|a|..]);
    }
  }

  lemma DownRoomOp(t: Tunnel, buf: Buf)
    requires WorldInv(t.p) && t.p.srv.auth.Auth? && Parse(buf.data).EndOfBuffer?
    requires Read(t.p.e) == Pack(t.p.srv.auth.reply) + buf.data
    requires buf.head <= HEADROOM
    ensures buf.Avail() > 0
  {
    AfterAuthReply(t, buf.data);
    if !t.p.srv.reply.NoReply? {
      RoomForRest(buf, t.p.srv.reply.reply, Read(t.p.d));
    }
  }

  /** The two replies fit together in the downstreamer's buffer, with room to spare. */
  lemma DownRoom(t: Tunnel)
    requires WorldInv(t.p) && DownControl(t) && DownBytes(t)
    requires t.down.Some? && t.down.value.relay.ctl.Running? && !t.down.value.phase.DownStream?
    ensures t.down.value.relay.buf.Avail() > 0
  {
    var buf := t.down.value.relay.buf;
    if t.down.value.phase.WaitAuth? {
      assert Stripped(t) + t.f.sent == [];
      DownRoomAuth(t, buf);
    } else {
      assert Stripped(t) + t.f.sent == Pack(t.p.srv.auth.reply);
      DownRoomOp(t, buf);
    }
  }
}
