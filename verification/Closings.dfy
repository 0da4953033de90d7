/** The end of a stream in a tunnel: what each of its four relays does when a call brings or takes
    nothing, or fails, and what that means for the connection onward. */
module Closings {
  import opened Wrappers
  import opened Codec
  import opened Buffers
  import opened Logs
  import opened Relays
  import opened ProxifierReactors
  import opened ProxyReactors
  import opened ProxyWorlds
  import opened Tunnels
  import opened Fates

  /** The relays: application to proxy, proxy to application, client to remote, and whatever
      downstreamer the proxy has made for the client. */
  datatype Which = ToProxyRelay | ToAppRelay | ToRemoteRelay | ToClientRelay

  /** The relay, once it relays. */
  function RelayOf(t: Tunnel, which: Which): Option<Relay> {
    match which
    case ToProxyRelay => if t.up.phase.Streaming? then Some(t.up.relay) else None
    case ToAppRelay => if t.down.Some? && t.down.value.phase.DownStream? then Some(t.down.value.relay) else None
    case ToRemoteRelay => if t.p.srv.phase.Relaying? then Some(t.p.srv.relay) else None
    case ToClientRelay => if t.p.srv.reply.NoReply? then None else Some(t.p.srv.reply.out)
  }

  /** The connection it feeds. */
  function Onward(t: Tunnel, which: Which): Pipe {
    match which
    case ToProxyRelay => t.p.b
    case ToAppRelay => t.f
    case ToRemoteRelay => t.p.c
    case ToClientRelay => t.p.e
  }

  /** A receive or a send of a relay, with the kernel's answer. */
  datatype Call = Receives(o: RecvOutcome) | Sends(w: SendOutcome) | Nothing

  function CallOf(t: Tunnel, e: Step, which: Which): Call {
    match e
    case UpRelayRecv(k) => if which.ToProxyRelay? then Receives(Answer(t.a, k)) else Nothing
    case UpRelaySend(w) => if which.ToProxyRelay? then Sends(w) else Nothing
    case DownRelayRecv(k) => if which.ToAppRelay? then Receives(Answer(t.p.e, k)) else Nothing
    case DownRelaySend(w) => if which.ToAppRelay? then Sends(w) else Nothing
    case InProxy(UpRecv(k)) => if which.ToRemoteRelay? then Receives(Answer(t.p.b, k)) else Nothing
    case InProxy(UpSend(w)) => if which.ToRemoteRelay? then Sends(w) else Nothing
    case InProxy(ReplyRecv(k)) => if which.ToClientRelay? then Receives(Answer(t.p.d, k)) else Nothing
    case InProxy(ReplySend(w)) => if which.ToClientRelay? then Sends(w) else Nothing
    case _ => Nothing
  }

  /** Enabled here and, for the proxy's events, there. */
  predicate Happens(t: Tunnel, e: Step) { Can(t, e) && (e.InProxy? ==> Enabled(t.p, e.ev)) }

  /** A receive brings nothing, or a send takes nothing. */
  predicate Ends(b: Buf, c: Call) {
    match c
    case Receives(o) => NothingReceived(b, o)
    case Sends(w) => NothingSent(b, w)
    case Nothing => false
  }

  predicate Fails(c: Call) { (c.Receives? && c.o.RecvFailed?) || (c.Sends? && c.w.SendFailed?) }

  /** The relay closed both its ends and waits for nothing, and the connection onward is closed. */
  ghost predicate Halted(t: Tunnel, which: Which) {
    var s := RelayOf(t, which);
    s.Some? && !Live(s.value.ctl) && !s.value.srcOpen && !s.value.dstOpen && Onward(t, which).fin
  }

  /** What one call does to a relay that makes it. */
  lemma StepEnds(s: Relay, c: Call)
    requires Inv(s) && s.ctl.Running? && !c.Nothing? && (c.Receives? <==> s.mode.Receiving?)
    ensures var q := if c.Receives? then RecvStep(s, c.o) else SendStep(s, c.w);
            && (Ends(s.buf, c) ==> q.ctl.Idle? && !q.srcOpen && !q.dstOpen)
            && (Fails(c) ==> q.ctl.Dead? && q.srcOpen == s.srcOpen && q.dstOpen == s.dstOpen)
            && (!Ends(s.buf, c) && !Fails(c) ==> !q.ctl.Dead? && q.srcOpen == s.srcOpen && q.dstOpen == s.dstOpen)
            && (!Ends(s.buf, c) && !Fails(c) && s.srcOpen ==> Live(q.ctl))
  {
    match c
    case Receives(o) => IoEffect(s.buf, o, SendBroken);
    case Sends(w) => IoEffect(s.buf, RecvBroken, w);
  }

  lemma CallMade(t: Tunnel, e: Step, which: Which)
    requires TunnelInv(t) && Happens(t, e) && !CallOf(t, e, which).Nothing?
    ensures RelayOf(t, which).Some?
    ensures var s := RelayOf(t, which).value;
            && Inv(s) && s.ctl.Running? && (CallOf(t, e, which).Receives? <==> s.mode.Receiving?)
  {
    hide Inv, Pack, UpBytes, DownBytes, EarlyControl, Inbound, Outbound, Closing, Counters;
  }

  lemma CallEffect(t: Tunnel, e: Step, which: Which)
    requires Happens(t, e) && !CallOf(t, e, which).Nothing? && RelayOf(t, which).Some?
    ensures var s, c, q := RelayOf(t, which).value, CallOf(t, e, which), Do(t, e);
            var r := if c.Receives? then RecvStep(s, c.o) else SendStep(s, c.w);
            RelayOf(q, which) == Some(r) && (!r.dstOpen ==> Onward(q, which).fin)
  {
    hide RecvStep, SendStep, Gets, Puts, Answer, Pack, TunnelInv;
  }

  lemma StepHalts(t: Tunnel, e: Step, which: Which)
    requires TunnelInv(t) && Happens(t, e) && !CallOf(t, e, which).Nothing?
    requires RelayOf(t, which).Some? && Ends(RelayOf(t, which).value.buf, CallOf(t, e, which))
    ensures Halted(Do(t, e), which)
  {
    hide TunnelInv, Inv, Happens, Do, RecvStep, SendStep, Ends;
    CallMade(t, e, which);
    StepEnds(RelayOf(t, which).value, CallOf(t, e, which));
    CallEffect(t, e, which);
  }

  // ----- from then on -----

  lemma UpStaysHalted(t: Tunnel, e: Step)
    requires Halted(t, ToProxyRelay)
    ensures Halted(Do(t, e), ToProxyRelay) && Do(t, e).p.b.sent == t.p.b.sent
  {
    if e.InProxy? && Can(t, e) {
      StablePipesOf(t.p, e.ev);
    }
    hide RecvStep, SendStep, Gets, Puts, Answer, Pack, UpRead, UpOpen, UpEarly, UpForce, UpRequest, DownRead;
  }

  lemma StablePipesOf(p: World, ev: ProxyWorlds.Event)
    requires !ev.ClientSend? && !ev.ClientFin?
    ensures ProxyWorlds.Next(p, ev).b.sent == p.b.sent && ProxyWorlds.Next(p, ev).b.fin == p.b.fin
  {
    hide RecvStep, SendStep, Gets, Puts, Answer, Pack, SrvReadReq, SrvTfo, AuthSend, SrvSocket, SrvConnect, SrvConnected;
  }

  lemma DownStaysHalted(t: Tunnel, e: Step)
    requires Halted(t, ToAppRelay) && t.up.phase.Streaming?
    ensures Halted(Do(t, e), ToAppRelay) && Do(t, e).f.sent == t.f.sent
  {
    hide RecvStep, SendStep, Gets, Puts, Answer, Pack, UpRead, UpOpen, UpEarly, UpForce, UpRequest, DownRead;
  }

  lemma SrvStaysHalted(p: World, ev: ProxyWorlds.Event)
    requires Control(p) && p.srv.phase.Relaying? && !Live(p.srv.relay.ctl) && !p.srv.relay.srcOpen && !p.srv.relay.dstOpen && p.c.fin
    ensures var q := ProxyWorlds.Next(p, ev);
            && q.srv.phase.Relaying? && q.srv.relay == p.srv.relay && q.c.fin && q.c.sent == p.c.sent
  {
    hide RecvStep, SendStep, Gets, Puts, Answer, Pack, SrvReadReq, SrvTfo, AuthSend, SrvSocket, SrvConnect, SrvConnected, Parse, Inv;
  }

  lemma ReplyStaysHalted(p: World, ev: ProxyWorlds.Event)
    requires Control(p) && !p.srv.reply.NoReply? && p.e.fin
    requires var out := p.srv.reply.out; !Live(out.ctl) && !out.srcOpen && !out.dstOpen
    ensures var q := ProxyWorlds.Next(p, ev);
            && !q.srv.reply.NoReply? && q.srv.reply.out == p.srv.reply.out && q.e.fin && q.e.sent == p.e.sent
  {
    hide RecvStep, SendStep, Gets, Puts, Answer, Pack, SrvReadReq, SrvTfo, AuthSend, SrvSocket, SrvConnect, SrvConnected, Parse, Inv;
  }

  lemma StaysHalted(t: Tunnel, e: Step, which: Which)
    requires TunnelInv(t) && Halted(t, which)
    ensures Halted(Do(t, e), which) && Onward(Do(t, e), which).sent == Onward(t, which).sent
  {
    hide Do, UpBytes, DownBytes, EarlyControl, Inbound, Outbound, Inv, Shape, AuthShape, Closing;
    match which
    case ToProxyRelay => UpStaysHalted(t, e);
    case ToAppRelay => DownStaysHalted(t, e);
    case ToRemoteRelay =>
      if e.InProxy? {
        InProxyEffect(t, e.ev);
        SrvStaysHalted(t.p, e.ev);
      } else {
        ProxyUntouched(t, e);
      }
    case ToClientRelay =>
      if e.InProxy? {
        InProxyEffect(t, e.ev);
        ReplyStaysHalted(t.p, e.ev);
      } else {
        ProxyUntouched(t, e);
      }
  }

  lemma InProxyEffect(t: Tunnel, ev: ProxyWorlds.Event)
    ensures var q := Do(t, InProxy(ev)).p; q == t.p || q == ProxyWorlds.Next(t.p, ev)
  {
  }

  lemma {:induction false} RunHalted(t: Tunnel, es: seq<Step>, which: Which)
    requires TunnelInv(t) && Halted(t, which)
    ensures Halted(Tunnels.Run(t, es), which) && Onward(Tunnels.Run(t, es), which).sent == Onward(t, which).sent
    decreases |es|
  {
    hide TunnelInv, Halted, Do, Onward;
    if es != [] {
      DoKeeps(t, es[0]);
      StaysHalted(t, es[0], which);
      RunHalted(Do(t, es[0]), es[1..], which);
    }
  }

  /** The end reaches the next connection: at whatever point of whatever run a relay's receive
      brings nothing or its send takes nothing, from then on both its ends are closed, it waits
      for nothing, and the connection onward is closed and carries nothing more. */
  lemma EndClosesOnward(request: Message, tls: bool, es: seq<Step>, e: Step, more: seq<Step>, which: Which)
    requires |Pack(request)| <= 255
    requires var t := Tunnels.Run(NewTunnel(request, tls), es);
             && Happens(t, e) && RelayOf(t, which).Some? && Ends(RelayOf(t, which).value.buf, CallOf(t, e, which))
    ensures var t := Tunnels.Run(NewTunnel(request, tls), es);
            var q := Tunnels.Run(Do(t, e), more);
            Halted(q, which) && Onward(q, which).sent == Onward(Do(t, e), which).sent
  {
    hide TunnelInv, Halted, Do, Tunnels.Run, Onward, Happens;
    var t := Reachable(request, tls, es);
    StepHalts(t, e, which);
    DoKeeps(t, e);
    RunHalted(Do(t, e), more, which);
  }

  // ----- nothing else ends a relay -----

  /** Which relays' calls brought or took nothing, which failed, and which were destroyed. */
  datatype Ledger = Ledger(t: Tunnel, ended: set<Which>, failed: set<Which>, vanished: set<Which>)

  predicate EndsIn(t: Tunnel, e: Step, which: Which) {
    Happens(t, e) && RelayOf(t, which).Some? && Ends(RelayOf(t, which).value.buf, CallOf(t, e, which))
  }

  predicate FailsIn(t: Tunnel, e: Step, which: Which) {
    Happens(t, e) && RelayOf(t, which).Some? && Fails(CallOf(t, e, which))
  }

  predicate Vanishes(t: Tunnel, e: Step, which: Which) {
    Happens(t, e) && RelayOf(t, which).Some? &&
    match which
    case ToProxyRelay => e.UpVanish?
    case ToAppRelay => e.DownVanish?
    case ToRemoteRelay => e == InProxy(ProxyWorlds.Event.Gone)
    case ToClientRelay => e == InProxy(ReplyGone)
  }

  const ALL := {ToProxyRelay, ToAppRelay, ToRemoteRelay, ToClientRelay}

  function Enter(l: Ledger, e: Step): Ledger {
    Ledger(Do(l.t, e),
           l.ended + (set w | w in ALL && EndsIn(l.t, e, w)),
           l.failed + (set w | w in ALL && FailsIn(l.t, e, w)),
           l.vanished + (set w | w in ALL && Vanishes(l.t, e, w)))
  }

  function EnterAll(l: Ledger, es: seq<Step>): Ledger
    decreases |es|
  {
    if es == [] then l else EnterAll(Enter(l, es[0]), es[1..])
  }

  /** The proxy's one-shot replies have no source. */
  predicate Sourced(t: Tunnel, which: Which) { which.ToClientRelay? ==> t.p.srv.reply.Connect? }

  /** Dead exactly if a call of its own failed; open exactly if none ended it and it still exists;
      and otherwise it runs or waits. */
  ghost predicate Accounted(l: Ledger, which: Which) {
    match RelayOf(l.t, which)
    case None => which !in l.ended && which !in l.failed && which !in l.vanished
    case Some(s) =>
      var over := which in l.ended || which in l.vanished;
      && (s.ctl.Dead? <==> which in l.failed)
      && (s.dstOpen <==> !over) && (s.srcOpen <==> !over && Sourced(l.t, which))
      && (!over && which !in l.failed && Sourced(l.t, which) ==> Live(s.ctl))
      && (over ==> !Live(s.ctl))
  }

  /** What may become of a relay in a step that is no call of its own. */
  ghost predicate Otherwise(t: Tunnel, q: Tunnel, which: Which, vanishes: bool) {
    match RelayOf(t, which)
    case None =>
      && !vanishes
      && (RelayOf(q, which).Some? ==>
            var s := RelayOf(q, which).value;
            Live(s.ctl) && s.dstOpen && (s.srcOpen <==> Sourced(q, which)))
    case Some(s) =>
      && (Sourced(q, which) <==> Sourced(t, which))
      && (if vanishes then !Live(s.ctl) && RelayOf(q, which) == Some(Destroyed(s))
          else RelayOf(q, which) == Some(s) || RelayOf(q, which) == Some(Wake(s)))
  }

  lemma UpOtherwise(t: Tunnel, e: Step)
    requires UpControl(t) && CallOf(t, e, ToProxyRelay).Nothing?
    ensures Otherwise(t, Do(t, e), ToProxyRelay, Vanishes(t, e, ToProxyRelay))
  {
    hide RecvStep, SendStep, Gets, Puts, Answer, Pack, DownRead, Destroyed, Wake, Inv, ProxyWorlds.Next, NewDownstream;
  }

  lemma ReplyBegins(d: Downstream, o: RecvOutcome)
    requires d.relay.ctl.Running? && !d.phase.DownStream?
    ensures var q := DownRead(d, o);
            q.phase.DownStream? ==> q.relay.ctl.Running? && q.relay.srcOpen == d.relay.srcOpen && q.relay.dstOpen == d.relay.dstOpen
  {
    hide Parse;
  }

  lemma DownOtherwise(t: Tunnel, e: Step)
    requires UpControl(t) && DownControl(t) && CallOf(t, e, ToAppRelay).Nothing?
    ensures Otherwise(t, Do(t, e), ToAppRelay, Vanishes(t, e, ToAppRelay))
  {
    hide RecvStep, SendStep, Gets, Puts, Answer, Pack, Parse, DownRead, Destroyed, Wake, Inv, ProxyWorlds.Next, UpRead, UpOpen, UpEarly, UpForce,
      UpRequest, Mute, Reported;
    if e.DownReply? && Can(t, e) {
      ReplyBegins(t.down.value, Answer(t.p.e, e.t));
    }
  }

  lemma SrvOtherwise(p: World, ev: ProxyWorlds.Event)
    requires Control(p) && !ev.UpRecv? && !ev.UpSend? && Enabled(p, ev)
    ensures var s, q := p.srv, ProxyWorlds.Next(p, ev).srv;
            if !s.phase.Relaying? then q.phase.Relaying? ==> Live(q.relay.ctl) && q.relay.srcOpen && q.relay.dstOpen
            else q.phase.Relaying? && (if ev.Gone? then !Live(s.relay.ctl) && q.relay == Destroyed(s.relay)
                                       else q.relay == s.relay || q.relay == Wake(s.relay))
  {
    hide RecvStep, SendStep, Gets, Puts, Answer, Pack, Parse, Destroyed, Wake, Inv, AuthSend, SrvReadReq;
    if ev.AuthWrite? {
      AuthSendSettles(p.srv, ev.w);
    } else if ev.ReadReq? {
      ReadReqStays(p.srv, Answer(p.b, ev.t), ev.reply);
    }
  }

  lemma ReadReqStays(s: Server, o: RecvOutcome, a: Message)
    requires s.phase.ReadingReq? && s.reply.NoReply?
    ensures var q := SrvReadReq(s, o, a);
            && !q.phase.Relaying? && !q.reply.Connect? && !q.reply.Simple?
            && (q.reply.VersionReply? ==> q.reply.out == Loaded([SOCKS6_VERSION], false))
  {
    hide Parse, Loaded;
  }

  lemma LoadedLives(bytes: seq<byte>, srcOpen: bool)
    requires bytes != []
    ensures Live(Loaded(bytes, srcOpen).ctl) && Loaded(bytes, srcOpen).dstOpen && Loaded(bytes, srcOpen).srcOpen == srcOpen
  {
  }

  lemma ReplyOtherwise(p: World, ev: ProxyWorlds.Event)
    requires Control(p) && !ev.ReplyRecv? && !ev.ReplySend? && Enabled(p, ev)
    ensures var s, q := p.srv.reply, ProxyWorlds.Next(p, ev).srv.reply;
            if s.NoReply? then
              !q.NoReply? ==> Live(q.out.ctl) && q.out.dstOpen && (q.out.srcOpen <==> q.Connect?)
            else
              && !q.NoReply? && (q.Connect? <==> s.Connect?)
              && (if ev.ReplyGone? then !Live(s.out.ctl) && q.out == Destroyed(s.out) else q.out == s.out || q.out == Wake(s.out))
  {
    hide RecvStep, SendStep, Gets, Puts, Answer, Pack, Parse, Destroyed, Wake, Inv, AuthSend, SrvReadReq;
    LoadedLives([SOCKS6_VERSION], false);
    if ev.AuthWrite? {
      AuthSendReplies(p.srv, ev.w);
    } else if ev.ReadReq? {
      ReadReqStays(p.srv, Answer(p.b, ev.t), ev.reply);
    } else if ev.ConnectResult? {
      LoadedLives(Pack(ev.bind.(code := OP_SUCCESS)), true);
    }
  }

  lemma AuthSendReplies(s: Server, w: SendOutcome)
    requires s.auth.Auth? && s.phase.AwaitingAuth? && s.reply.NoReply?
    ensures var q := AuthSend(s, w).reply;
            q.NoReply? || (q.Simple? && Live(q.out.ctl) && q.out.dstOpen && !q.out.srcOpen)
  {
    hide SockSend;
  }

  lemma NotHappening(t: Tunnel, e: Step)
    requires !Happens(t, e)
    ensures Do(t, e) == t
  {
    DoRequest(t, e);
    if Can(t, e) {
      assert e.InProxy? && ProxyWorlds.Next(t.p, e.ev) == t.p;
    }
    hide RecvStep, SendStep;
  }

  lemma AnyOtherwise(t: Tunnel, e: Step, which: Which)
    requires TunnelInv(t) && Happens(t, e) && CallOf(t, e, which).Nothing?
    ensures Otherwise(t, Do(t, e), which, Vanishes(t, e, which))
  {
    hide UpBytes, DownBytes, EarlyControl, Inbound, Outbound, Inv, Shape, AuthShape, Closing, Do, UpControl, DownControl, ProxyWorlds.Next,
      Destroyed, Wake;
    match which
    case ToProxyRelay => UpOtherwise(t, e);
    case ToAppRelay => DownOtherwise(t, e);
    case ToRemoteRelay =>
      if e.InProxy? {
        InProxyDoes(t, e.ev);
        SrvOtherwise(t.p, e.ev);
      } else {
        ProxyUntouched(t, e);
      }
    case ToClientRelay =>
      if e.InProxy? {
        InProxyDoes(t, e.ev);
        ReplyOtherwise(t.p, e.ev);
      } else {
        ProxyUntouched(t, e);
      }
  }

  lemma InProxyDoes(t: Tunnel, ev: ProxyWorlds.Event)
    requires Can(t, InProxy(ev))
    ensures Do(t, InProxy(ev)).p == ProxyWorlds.Next(t.p, ev)
  {
  }

  lemma Marks(l: Ledger, e: Step, which: Which)
    ensures var m := Enter(l, e);
            && m.t == Do(l.t, e)
            && (which in m.ended <==> which in l.ended || EndsIn(l.t, e, which))
            && (which in m.failed <==> which in l.failed || FailsIn(l.t, e, which))
            && (which in m.vanished <==> which in l.vanished || Vanishes(l.t, e, which))
  {
    hide Do, EndsIn, FailsIn, Vanishes;
    assert which in ALL;
  }

  lemma CallAccounted(l: Ledger, e: Step, which: Which)
    requires TunnelInv(l.t) && Accounted(l, which) && Happens(l.t, e) && !CallOf(l.t, e, which).Nothing?
    ensures Accounted(Enter(l, e), which)
  {
    hide TunnelInv, Inv, Do, RecvStep, SendStep, Enter, Ends, Fails;
    Marks(l, e, which);
    CallMade(l.t, e, which);
    CallEffect(l.t, e, which);
    StepEnds(RelayOf(l.t, which).value, CallOf(l.t, e, which));
    CallSourced(l.t, e, which);
    NotBoth(RelayOf(l.t, which).value.buf, CallOf(l.t, e, which));
  }

  lemma NotBoth(b: Buf, c: Call)
    ensures !(Ends(b, c) && Fails(c))
  {
  }

  lemma CallSourced(t: Tunnel, e: Step, which: Which)
    requires Happens(t, e) && !CallOf(t, e, which).Nothing?
    ensures (Sourced(Do(t, e), which) <==> Sourced(t, which)) && !Vanishes(t, e, which)
  {
    hide RecvStep, SendStep, Gets, Puts, Answer, Pack, Destroyed, Wake;
  }

  lemma OtherAccounted(l: Ledger, e: Step, which: Which)
    requires TunnelInv(l.t) && Accounted(l, which) && Happens(l.t, e) && CallOf(l.t, e, which).Nothing?
    ensures Accounted(Enter(l, e), which)
  {
    hide TunnelInv, Do, Enter, Happens;
    Marks(l, e, which);
    AnyOtherwise(l.t, e, which);
  }

  lemma StepAccounted(l: Ledger, e: Step, which: Which)
    requires TunnelInv(l.t) && Accounted(l, which)
    ensures Accounted(Enter(l, e), which)
  {
    hide TunnelInv, Do, Enter;
    if !Happens(l.t, e) {
      Marks(l, e, which);
      NotHappening(l.t, e);
    } else if CallOf(l.t, e, which).Nothing? {
      OtherAccounted(l, e, which);
    } else {
      CallAccounted(l, e, which);
    }
  }

  lemma {:induction false} RunAccounted(l: Ledger, es: seq<Step>, which: Which)
    requires TunnelInv(l.t) && Accounted(l, which)
    ensures Accounted(EnterAll(l, es), which) && EnterAll(l, es).t == Tunnels.Run(l.t, es)
    decreases |es|
  {
    hide TunnelInv, Accounted;
    if es != [] {
      DoKeeps(l.t, es[0]);
      StepAccounted(l, es[0], which);
      RunAccounted(Enter(l, es[0]), es[1..], which);
    }
  }

  lemma NewAccounted(request: Message, tls: bool, which: Which)
    ensures Accounted(Ledger(NewTunnel(request, tls), {}, {}, {}), which)
  {
  }

  /** Over every run of a tunnel each of its relays is accounted for: it is dead exactly if a call
      of its own failed, its ends are open exactly until a call of its own brought or took nothing
      or it was destroyed, and as long as none of this happened it runs or waits. */
  lemma RelaysAccounted(request: Message, tls: bool, es: seq<Step>, which: Which)
    requires |Pack(request)| <= 255
    ensures var l := EnterAll(Ledger(NewTunnel(request, tls), {}, {}, {}), es);
            l.t == Tunnels.Run(NewTunnel(request, tls), es) && Accounted(l, which)
  {
    hide TunnelInv, Accounted;
    var first := Reachable(request, tls, []);
    NewAccounted(request, tls, which);
    RunAccounted(Ledger(first, {}, {}, {}), es, which);
  }
}
