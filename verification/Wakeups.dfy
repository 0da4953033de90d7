/** No lost wakeup in a tunnel: the four relays of a tunnel enter their streaming state in
    different ways, three of them in the middle of a `process` call, and each then always waits
    for the event its buffer calls for. */
module Wakeups {
  import opened Wrappers
  import opened Codec
  import opened Buffers
  import opened Logs
  import opened Relays
  import opened ProxifierReactors
  import opened ProxyReactors
  import opened ProxyWorlds
  import opened Tunnels

  /** Waiting for the right event, and never for none while both ends are open. */
  ghost predicate Alert(s: Relay) { Woken(s) && (s.ctl.Idle? ==> !s.srcOpen || !s.dstOpen) }

  predicate PlainTake(k: Take) { k.TakeAgain? ==> k.dir == In }

  predicate PlainSend(w: SendOutcome) { w.SendAgain? ==> w.dir == Out }

  lemma RecvAlert(s: Relay, o: RecvOutcome)
    requires Inv(s) && s.ctl.Running? && s.mode.Receiving? && (o.RecvAgain? ==> o.dir == In)
    ensures Alert(RecvStep(s, o))
  {
  }

  lemma SendAlert(s: Relay, w: SendOutcome)
    requires Inv(s) && s.ctl.Running? && s.mode.Sending? && PlainSend(w)
    ensures Alert(SendStep(s, w))
  {
  }

  lemma StillAlert(s: Relay)
    ensures Alert(s) ==> Alert(Wake(s)) && Alert(Destroyed(s))
  {
  }

  // ----- in the proxy -----

  ghost predicate ServerAlert(s: Server) {
    && (s.phase.Relaying? ==> Alert(s.relay))
    && (s.reply.Connect? ==> Alert(s.reply.out))
  }

  predicate PlainEvent(ev: ProxyWorlds.Event) {
    match ev
    case UpRecv(t) => PlainTake(t)
    case UpSend(w) => PlainSend(w)
    case ReplyRecv(t) => PlainTake(t)
    case ReplySend(w) => PlainSend(w)
    case _ => true
  }

  /** The relays start when the connect is done: the upstreamer goes on inside the same call. */
  lemma ConnectedAlert(s: Server, code: byte, ok: bool, bind: Message)
    requires s.relay.ctl.Running? && s.phase.AwaitingConnect? && s.reply.NoReply?
    ensures ServerAlert(SrvConnected(s, code, ok, bind))
  {
    hide Pack;
  }

  lemma RelayingAlert(p: World, ev: ProxyWorlds.Event)
    requires Shape(p.srv) && ServerAlert(p.srv) && PlainEvent(ev) && Enabled(p, ev)
    requires ev.UpRecv? || ev.UpSend? || ev.Wakeup? || ev.Gone?
    ensures ServerAlert(ProxyWorlds.Next(p, ev).srv)
  {
    hide RecvStep, SendStep, Destroyed, Wake, Alert;
    match ev
    case UpRecv(t) => RecvAlert(p.srv.relay, Answer(p.b, t));
    case UpSend(w) => SendAlert(p.srv.relay, w);
    case Wakeup => StillAlert(p.srv.relay);
    case Gone => StillAlert(p.srv.relay);
  }

  lemma ReplyAlert(p: World, ev: ProxyWorlds.Event)
    requires Shape(p.srv) && ServerAlert(p.srv) && PlainEvent(ev) && Enabled(p, ev)
    requires ev.ReplyRecv? || ev.ReplySend? || ev.ReplyWakeup? || ev.ReplyGone?
    ensures ServerAlert(ProxyWorlds.Next(p, ev).srv)
  {
    hide RecvStep, SendStep, Destroyed, Wake, Alert;
    match ev
    case ReplyRecv(t) => RecvAlert(p.srv.reply.out, Answer(p.d, t));
    case ReplySend(w) => SendAlert(p.srv.reply.out, w);
    case ReplyWakeup => StillAlert(p.srv.reply.out);
    case ReplyGone => StillAlert(p.srv.reply.out);
  }

  /** Nothing before the connect starts a relay. */
  lemma EarlierAlert(p: World, ev: ProxyWorlds.Event)
    requires Shape(p.srv) && AuthShape(p.srv) && Enabled(p, ev)
    requires ev.ReadReq? || ev.AuthWrite? || ev.MakeSocket? || ev.ReadTfo? || ev.DoConnect?
    ensures var q := ProxyWorlds.Next(p, ev).srv; !q.phase.Relaying? && !q.reply.Connect?
  {
    hide Loaded, Settle, Pack;
    if ev.AuthWrite? {
      assert p.srv.phase.AwaitingAuth?;
    }
  }

  lemma NextAlert(p: World, ev: ProxyWorlds.Event)
    requires WorldInv(p) && ServerAlert(p.srv) && PlainEvent(ev)
    ensures ServerAlert(ProxyWorlds.Next(p, ev).srv)
  {
    hide Alert, Inv, SrvReadReq, AuthSend, SrvSocket, SrvTfo, SrvConnect, SrvConnected, RecvStep, SendStep, Destroyed;
    if Enabled(p, ev) {
      match ev
      case ConnectResult(code, ok, bind) => ConnectedAlert(p.srv, code, ok, bind);
      case UpRecv(_) => RelayingAlert(p, ev);
      case UpSend(_) => RelayingAlert(p, ev);
      case Wakeup => RelayingAlert(p, ev);
      case Gone => RelayingAlert(p, ev);
      case ReplyRecv(_) => ReplyAlert(p, ev);
      case ReplySend(_) => ReplyAlert(p, ev);
      case ReplyWakeup => ReplyAlert(p, ev);
      case ReplyGone => ReplyAlert(p, ev);
      case ReadReq(_, _) => EarlierAlert(p, ev);
      case AuthWrite(_) => EarlierAlert(p, ev);
      case MakeSocket(_) => EarlierAlert(p, ev);
      case ReadTfo(_) => EarlierAlert(p, ev);
      case DoConnect(_) => EarlierAlert(p, ev);
      case _ =>
    }
  }

  // ----- in the tunnel -----

  ghost predicate UpAlert(up: Upstream) { up.phase.Streaming? ==> Alert(up.relay) }

  ghost predicate DownAlert(down: Option<Downstream>) {
    down.Some? && down.value.phase.DownStream? ==> Alert(down.value.relay)
  }

  ghost predicate TunnelAlert(t: Tunnel) { UpAlert(t.up) && DownAlert(t.down) && ServerAlert(t.p.srv) }

  /** While relaying, a blocked receive waits for input and a blocked send for output. */
  predicate PlainStep(e: Step) {
    match e
    case UpRelayRecv(k) => PlainTake(k)
    case UpRelaySend(w) => PlainSend(w)
    case DownRelayRecv(k) => PlainTake(k)
    case DownRelaySend(w) => PlainSend(w)
    case InProxy(ev) => PlainEvent(ev)
    case _ => true
  }

  /** The request is out: relaying begins in the middle of the call. */
  lemma RequestAlert(s: Upstream, w: SendOutcome)
    requires s.relay.ctl.Running? && s.phase.SendingReq?
    ensures UpAlert(UpRequest(s, w))
  {
  }

  lemma UpBeginsAlert(t: Tunnel, e: Step)
    requires Can(t, e)
    requires e.StartRead? || e.StartOpen? || e.SoError? || e.SkipTls? || e.EarlyWrite? || e.Handshake?
    ensures !Do(t, e).up.phase.Streaming?
  {
  }

  lemma UpDoAlert(t: Tunnel, e: Step)
    requires (t.up.phase.Streaming? ==> Inv(t.up.relay)) && UpAlert(t.up) && PlainStep(e) && Can(t, e)
    ensures UpAlert(Do(t, e).up)
  {
    hide Alert, RecvStep, SendStep, Destroyed, Wake, UpRequest, UpRead, UpOpen, UpForce, UpEarly, UpCheck, UpSkip, Inv;
    match e
    case StartRead(_) => UpBeginsAlert(t, e);
    case StartOpen(_, _, _) => UpBeginsAlert(t, e);
    case SoError(_) => UpBeginsAlert(t, e);
    case SkipTls => UpBeginsAlert(t, e);
    case EarlyWrite(_) => UpBeginsAlert(t, e);
    case Handshake(_) => UpBeginsAlert(t, e);
    case FirstSend(w) => RequestAlert(t.up, w);
    case UpRelayRecv(k) => RecvAlert(t.up.relay, Answer(t.a, k));
    case UpRelaySend(w) => SendAlert(t.up.relay, w);
    case UpWakeup => StillAlert(t.up.relay);
    case UpVanish => StillAlert(t.up.relay);
    case _ =>
  }

  /** The operation reply is in: relaying begins in the middle of the call. */
  lemma ReplyReadAlert(d: Downstream, o: RecvOutcome)
    requires d.relay.ctl.Running? && !d.phase.DownStream?
    ensures DownAlert(Some(DownRead(d, o)))
  {
  }

  lemma DownDoAlert(t: Tunnel, e: Step)
    requires t.down.Some? && t.down.value.phase.DownStream? ==> Inv(t.down.value.relay)
    requires DownAlert(t.down) && PlainStep(e) && Can(t, e)
    ensures DownAlert(Do(t, e).down)
  {
    hide Alert, RecvStep, SendStep, Destroyed, Wake, DownRead, Inv, Parse, UpRead, UpOpen, UpForce, UpEarly, UpRequest, Mute,
      Reported;
    match e
    case FirstSend(_) =>
    case DownWakeup => if t.down.Some? { StillAlert(t.down.value.relay); }
    case DownReply(k) => ReplyReadAlert(t.down.value, Answer(t.p.e, k));
    case DownRelayRecv(k) => RecvAlert(t.down.value.relay, Answer(t.p.e, k));
    case DownRelaySend(w) => SendAlert(t.down.value.relay, w);
    case DownVanish => StillAlert(t.down.value.relay);
    case _ =>
  }

  lemma DoAlert(t: Tunnel, e: Step)
    requires TunnelInv(t) && TunnelAlert(t) && PlainStep(e)
    ensures TunnelAlert(Do(t, e))
  {
    hide Do, Inv, WorldInv, UpAlert, DownAlert, ServerAlert, EarlyControl, UpBytes, DownBytes, PlainStep;
    DoRequest(t, e);
    RelaysInv(t);
    SrvDoAlert(t, e);
    if Can(t, e) {
      UpDoAlert(t, e);
      DownDoAlert(t, e);
    }
  }

  lemma SrvDoAlert(t: Tunnel, e: Step)
    requires WorldInv(t.p) && ServerAlert(t.p.srv) && PlainStep(e)
    ensures ServerAlert(Do(t, e).p.srv)
  {
    hide ServerAlert, WorldInv;
    if e.InProxy? {
      NextAlert(t.p, e.ev);
    } else {
      ProxyUntouched(t, e);
      hide Do;
    }
  }

  lemma {:induction false} RunAlert(t: Tunnel, es: seq<Step>)
    requires TunnelInv(t) && TunnelAlert(t) && (forall i :: 0 <= i < |es| ==> PlainStep(es[i]))
    ensures TunnelAlert(Tunnels.Run(t, es))
    decreases |es|
  {
    hide TunnelInv, TunnelAlert, Do, PlainStep;
    if es != [] {
      DoAlert(t, es[0]);
      DoKeeps(t, es[0]);
      RunAlert(Do(t, es[0]), es[1..]);
    }
  }

  /** Alive, both ends open and not being run: input is awaited exactly when nothing is buffered,
      output exactly when something is. */
  ghost predicate AwaitsRightly(s: Relay) {
    !s.ctl.Running? && !s.ctl.Dead? && s.srcOpen && s.dstOpen ==>
      && (s.ctl == Armed(Src, In) <==> s.buf.Used() == 0)
      && (s.ctl == Armed(Dst, Out) <==> s.buf.Used() > 0)
  }

  lemma AlertAwaits(s: Relay)
    requires Inv(s) && Alert(s)
    ensures AwaitsRightly(s)
  {
  }

  /** In every run of a tunnel, whatever the interleaving, none of its four relays is ever left
      waiting for the wrong event, or for none, once it relays. */
  lemma NoLostWakeupInTunnel(request: Message, tls: bool, es: seq<Step>)
    requires |Pack(request)| <= 255 && (forall i :: 0 <= i < |es| ==> PlainStep(es[i]))
    ensures var t := Tunnels.Run(NewTunnel(request, tls), es);
            && (t.up.phase.Streaming? ==> AwaitsRightly(t.up.relay))
            && (t.down.Some? && t.down.value.phase.DownStream? ==> AwaitsRightly(t.down.value.relay))
            && (t.p.srv.phase.Relaying? ==> AwaitsRightly(t.p.srv.relay))
            && (t.p.srv.reply.Connect? ==> AwaitsRightly(t.p.srv.reply.out))
  {
    var first := Reachable(request, tls, []);
    NewAlert(request, tls);
    hide TunnelInv;
    RunAlert(first, es);
    var t := Reachable(request, tls, es);
    hide Alert, AwaitsRightly, Tunnels.Run;
    RelaysInv(t);
    if t.up.phase.Streaming? { AlertAwaits(t.up.relay); }
    if t.down.Some? && t.down.value.phase.DownStream? { AlertAwaits(t.down.value.relay); }
    if t.p.srv.phase.Relaying? { AlertAwaits(t.p.srv.relay); }
    if t.p.srv.reply.Connect? { AlertAwaits(t.p.srv.reply.out); }
  }

  lemma NewAlert(request: Message, tls: bool)
    ensures TunnelAlert(NewTunnel(request, tls))
  {
  }

  lemma RelaysInv(t: Tunnel)
    requires TunnelInv(t)
    ensures t.up.phase.Streaming? ==> Inv(t.up.relay)
    ensures t.down.Some? && t.down.value.phase.DownStream? ==> Inv(t.down.value.relay)
    ensures t.p.srv.phase.Relaying? ==> Inv(t.p.srv.relay)
    ensures t.p.srv.reply.Connect? ==> Inv(t.p.srv.reply.out)
  {
    hide Inv;
  }
}
