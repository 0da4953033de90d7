/** The event loop runs whole `process` calls; the run theorems are about single system calls.
    Here every whole call, as the reactor classes are proved to compute it, is shown to be a
    run of system calls of the composed machines: the run theorems speak about the classes. */
module Calls {
  import opened Wrappers
  import opened Codec
  import opened Buffers
  import opened Logs
  import opened Relays
  import opened ProxifierReactors
  import opened ProxyReactors
  import opened ProxyWorlds
  import opened Tunnels

  /** `q` is where some run from `t` ends. */
  ghost predicate Leads(t: Tunnel, q: Tunnel) { exists es :: Tunnels.Run(t, es) == q }

  lemma {:induction false} RunAppend(t: Tunnel, xs: seq<Step>, ys: seq<Step>)
    ensures Tunnels.Run(t, xs + ys) == Tunnels.Run(Tunnels.Run(t, xs), ys)
    decreases |xs|
  {
    if xs == [] {
      assert xs + ys == ys;
    } else {
      assert (xs + ys)[0] == xs[0] && (xs + ys)[1..] == xs[1..] + ys;
      RunAppend(Do(t, xs[0]), xs[1..], ys);
    }
  }

  lemma LeadsOn(t: Tunnel, q: Tunnel, r: Tunnel)
    requires Leads(t, q) && Leads(q, r)
    ensures Leads(t, r)
  {
    var xs :| Tunnels.Run(t, xs) == q;
    var ys :| Tunnels.Run(q, ys) == r;
    RunAppend(t, xs, ys);
  }

  lemma Stay(t: Tunnel)
    ensures Leads(t, t)
  {
    assert Tunnels.Run(t, []) == t;
  }

  lemma StepLeads(t: Tunnel, x: Step)
    ensures Leads(t, Do(t, x))
  {
    var q := Do(t, x);
    assert Tunnels.Run(q, [x][1..]) == q;
    assert Tunnels.Run(t, [x]) == q;
  }

  /** One system call: a run of length one that keeps the invariant. */
  lemma OneStep(t: Tunnel, x: Step) returns (q: Tunnel)
    requires TunnelInv(t)
    ensures q == Do(t, x) && Leads(t, q) && TunnelInv(q)
  {
    q := Do(t, x);
    StepLeads(t, x);
    DoKeeps(t, x);
  }

  // ----- whole calls come to an end -----

  lemma RecvReturns(s: Relay, r: RecvOutcome)
    ensures RecvStep(s, r).ctl.Running? ==> RecvStep(s, r).mode.Sending? && s.ctl.Running?
  {
  }

  lemma SendReturns(s: Relay, w: SendOutcome)
    ensures !SendStep(s, w).ctl.Running?
  {
  }

  /** A call of `process` goes on until there is nothing left to do in it: it never returns while
      the reactor could still go on. */
  lemma ProcessReturns(s: Relay, r: RecvOutcome, w: SendOutcome)
    requires s.ctl.Running?
    ensures !Process(s, r, w).ctl.Running?
  {
    hide RecvStep, SendStep;
    var mid := if s.mode.Receiving? then RecvStep(s, r) else s;
    SendReturns(mid, w);
  }

  lemma ShakenReturns(s: Upstream, io: UpIo)
    requires s.phase.Handshaking? && s.relay.ctl.Running?
    ensures UpHandshake(s, io).relay.ctl.Running? ==> UpHandshake(s, io).phase.SendingReq?
  {
  }

  lemma UpReturns(s: Upstream, io: UpIo)
    requires s.relay.ctl.Running? && !s.phase.Fresh? && !s.phase.Opening?
    ensures !UpProcess(s, io).relay.ctl.Running?
  {
    hide UpHandshake, Process;
    var s1 := if s.phase.Connecting? then UpCheck(s, io.soError) else s;
    if s1.relay.ctl.Running? && s1.phase.Handshaking? {
      ShakenReturns(s1, io);
    }
    var s2 := if s1.relay.ctl.Running? && s1.phase.Handshaking? then UpHandshake(s1, io) else s1;
    var s3 := if s2.relay.ctl.Running? && s2.phase.SendingReq? then UpRequest(s2, io.request) else s2;
    if s3.relay.ctl.Running? && s3.phase.Streaming? {
      ProcessReturns(s3.relay, io.recv, io.send);
    }
  }

  lemma StartReturns(s: Upstream, r: RecvOutcome, request: seq<byte>, o: ConnectOutcome, max: nat, early: bool)
    ensures !UpStart(s, r, request, o, max, early).relay.ctl.Running?
  {
    hide TfoRest, SockRecv;
  }

  lemma DownReturns(s: Downstream, first: RecvOutcome, r: RecvOutcome, w: SendOutcome)
    requires s.relay.ctl.Running?
    ensures !DownProcess(s, first, r, w).relay.ctl.Running?
  {
    hide Process, Parse;
    var mid := if s.phase.DownStream? then s else DownRead(s, first);
    if mid.relay.ctl.Running? && mid.phase.DownStream? {
      ProcessReturns(mid.relay, r, w);
    }
  }

  lemma TfoReturns(s: Server, io: SrvIo)
    requires s.phase.ReadingTfo? && s.relay.ctl.Running?
    ensures !SrvTfoThenConnect(s, io).relay.ctl.Running?
  {
    hide Loaded, TfoRest;
  }

  lemma SrvReturns(s: Server, io: SrvIo)
    requires s.relay.ctl.Running? && (s.phase.ReadingReq? || s.phase.ReadingTfo? || s.phase.AwaitingConnect? || s.phase.Relaying?)
    ensures !SrvProcess(s, io).relay.ctl.Running?
  {
    hide Process, SrvTfoThenConnect, Loaded, Parse;
    match s.phase
    case ReadingTfo(_) => TfoReturns(s, io);
    case AwaitingConnect =>
      var mid := SrvConnected(s, io.code, io.ok, io.bind);
      if mid.phase.Relaying? && mid.relay.ctl.Running? {
        ProcessReturns(mid.relay, io.rr, io.w);
      }
    case Relaying => ProcessReturns(s.relay, io.rr, io.w);
    case _ =>
  }

  lemma AuthSendReturns(s: Server, w: SendOutcome)
    requires s.auth.Auth? && s.phase.AwaitingAuth? && s.request.Some? && !s.relay.ctl.Running?
    ensures var q := AuthSend(s, w);
            q.auth.Auth? && !q.auth.ctl.Running? && (q.relay.ctl.Running? ==> q.phase.Honoring?)
  {
    hide Loaded;
  }

  lemma AuthReturns(s: Server, w: SendOutcome, socketOk: bool, io: SrvIo)
    requires s.auth.Auth? && s.phase.AwaitingAuth? && s.request.Some? && !s.relay.ctl.Running?
    ensures var q := AuthProcess(s, w, socketOk, io); q.auth.Auth? && !q.auth.ctl.Running? && !q.relay.ctl.Running?
  {
    hide AuthSend, SrvTfoThenConnect, Loaded;
    AuthSendReturns(s, w);
    var mid := AuthSend(s, w);
    if mid.phase.Honoring? {
      var q := SrvSocket(mid, socketOk);
      if q.phase.ReadingTfo? {
        assert mid.relay.ctl.Running? by { HonoringRuns(s, w); }
        TfoReturns(q, io);
        TfoSparesAuth(q, io);
      }
    }
  }

  lemma HonoringRuns(s: Server, w: SendOutcome)
    requires s.auth.Auth? && s.phase.AwaitingAuth?
    ensures AuthSend(s, w).phase.Honoring? ==> AuthSend(s, w).relay.ctl.Running?
  {
    hide Loaded;
  }

  lemma TfoSparesAuth(s: Server, io: SrvIo)
    ensures SrvTfoThenConnect(s, io).auth == s.auth
  {
    hide Loaded, TfoRest;
  }

  // ----- the proxifier -----

  /** What another reactor or another party has in hand. */
  ghost predicate OthersIdle(t: Tunnel, q: Tunnel) {
    q.a.sent == t.a.sent && q.a.fin == t.a.fin && q.f == t.f && q.p.srv == t.p.srv && q.p.e == t.p.e
  }

  lemma UpFacts(t: Tunnel)
    requires TunnelInv(t) && t.up.relay.ctl.Running?
    ensures !t.p.b.fin && (t.up.tls.WantEarly? ==> t.early.NoEarly?) && (t.up.tls.WantHandshake? ==> t.up.phase.Handshaking?)
  {
  }

  lemma StartReadStep(t: Tunnel, k: Take) returns (q: Tunnel)
    requires TunnelInv(t) && t.up.phase.Fresh? && t.up.relay.ctl.Running? && CanTake(t.a, k)
    ensures Leads(t, q) && TunnelInv(q) && q.request == t.request && OthersIdle(t, q)
    ensures q.up == UpRead(t.up, Answer(t.a, k), Pack(t.request)) && q.p.b.sent == t.p.b.sent
  {
    hide TunnelInv, UpRead, Gets, Answer;
    UpFacts(t);
    q := OneStep(t, StartRead(k));
  }

  lemma StartOpenStep(t: Tunnel, o: ConnectOutcome, max: nat, early: bool) returns (q: Tunnel)
    requires TunnelInv(t) && t.up.phase.Opening? && t.up.relay.ctl.Running?
    ensures Leads(t, q) && OthersIdle(t, q) && q.up == UpOpen(t.up, o, max, early)
    ensures q.p.b.sent == t.p.b.sent + if t.up.tls.NoTls? then t.up.relay.buf.data[..TfoCount(t.up.relay.buf, o, max)] else []
  {
    hide TunnelInv;
    UpFacts(t);
    q := OneStep(t, StartOpen(o, max, early));
  }

  /** `ProxifierUpstreamer::start`: from any reachable state, the class's whole call is a run of
      the tunnel in which only this reactor acts, and writes what the method returns. */
  lemma StartCallIsRun(t: Tunnel, k: Take, o: ConnectOutcome, max: nat, early: bool) returns (q: Tunnel)
    requires TunnelInv(t) && t.up.phase.Fresh? && t.up.relay.ctl.Running? && CanTake(t.a, k)
    ensures Leads(t, q) && OthersIdle(t, q)
    ensures q.up == UpStart(t.up, Answer(t.a, k), Pack(t.request), o, max, early) && !q.up.relay.ctl.Running?
    ensures var mid := UpRead(t.up, Answer(t.a, k), Pack(t.request));
            q.p.b.sent == t.p.b.sent + if mid.relay.ctl.Running? && mid.tls.NoTls?
                                       then mid.relay.buf.data[..TfoCount(mid.relay.buf, o, max)] else []
  {
    hide TunnelInv;
    var mid := StartReadStep(t, k);
    q := mid;
    if mid.up.relay.ctl.Running? {
      q := StartOpenStep(mid, o, max, early);
      LeadsOn(t, mid, q);
    }
    StartReturns(t.up, Answer(t.a, k), Pack(t.request), o, max, early);
  }

  /** A verdict given in an earlier call is the one NSS reports now. */
  ghost predicate Consistent(t: Tunnel, h: ForceOutcome) {
    t.up.tls.WantHandshake? && !t.early.Pending? ==> Reported(t, h)
  }

  /** NSS sends nothing once the connection has ended during the handshake. */
  ghost predicate Silenced(t: Tunnel, io: UpIo) {
    t.cut || (io.force.ForceEof? && (t.up.tls.WantEarly? || t.up.tls.WantHandshake?)) ==> Mute(io.request) && Mute(io.send)
  }

  /** The verdict is known to the client. */
  predicate Tells(h: ForceOutcome) { h.ForceDone? || (h.ForceEof? && h.accepted) }

  predicate Delivered(e: Early) { e.Taken? || e.Settled? }

  /** Early data the server took between `t` and `q`. */
  function TakenSince(t: Tunnel, q: Tunnel): seq<byte> {
    if Delivered(q.early) && !Delivered(t.early) then q.early.bytes else []
  }

  /** What each part of the call keeps for the next. */
  ghost predicate Part(t: Tunnel, q: Tunnel, sent: seq<byte>) {
    && Leads(t, q) && OthersIdle(t, q) && q.p.b.sent == t.p.b.sent + sent
  }

  lemma JoinParts(t: Tunnel, q: Tunnel, r: Tunnel, x: seq<byte>, y: seq<byte>)
    requires Part(t, q, x) && Part(q, r, y)
    ensures Part(t, r, x + y)
  {
    LeadsOn(t, q, r);
  }

  lemma VerdictStep(t: Tunnel, h: ForceOutcome) returns (q: Tunnel)
    requires TunnelInv(t) && t.up.relay.ctl.Running? && t.up.tls.WantHandshake? && Tells(h) && Consistent(t, h)
    ensures TunnelInv(q) && q.up == t.up && q.a == t.a && q.cut == t.cut && Part(t, q, TakenSince(t, q))
    ensures !q.early.Pending? && (h.accepted <==> q.early.Taken?)
  {
    hide TunnelInv, Mute;
    UpFacts(t);
    q := OneStep(t, Verdict(h.accepted));
  }

  lemma ForceStep(t: Tunnel, h: ForceOutcome) returns (q: Tunnel)
    requires TunnelInv(t) && t.up.relay.ctl.Running? && t.up.tls.WantHandshake? && Reported(t, h)
    ensures TunnelInv(q) && q.up == UpForce(t.up, h) && q.a == t.a && Part(t, q, [])
    ensures q.cut == (t.cut || h.ForceEof?)
    ensures Delivered(q.early) <==> Delivered(t.early)
    ensures Delivered(t.early) ==> q.early.bytes == t.early.bytes
  {
    hide TunnelInv, UpForce, Mute;
    UpFacts(t);
    q := OneStep(t, Handshake(h));
  }

  lemma EarlyStep(t: Tunnel, w: SendOutcome) returns (q: Tunnel)
    requires TunnelInv(t) && t.up.relay.ctl.Running? && t.up.phase.Handshaking? && t.up.tls.WantEarly?
    ensures TunnelInv(q) && q.up == UpEarly(t.up, w) && q.a == t.a && q.cut == t.cut && Part(t, q, []) && !Delivered(q.early)
    ensures q.up.tls.WantHandshake? ==> q.early.Pending?
  {
    hide TunnelInv;
    UpFacts(t);
    q := OneStep(t, EarlyWrite(w));
  }

  lemma SkipStep(t: Tunnel) returns (q: Tunnel)
    requires TunnelInv(t) && t.up.relay.ctl.Running? && t.up.phase.Handshaking? && (t.up.tls.NoTls? || t.up.tls.LaissezFaire?)
    ensures TunnelInv(q) && q.up == UpSkip(t.up) && q.a == t.a && q.early == t.early && q.cut == t.cut && Part(t, q, [])
  {
    hide TunnelInv;
    UpFacts(t);
    q := OneStep(t, SkipTls);
  }

  lemma ForcePart(t: Tunnel, h: ForceOutcome) returns (q: Tunnel)
    requires TunnelInv(t) && t.up.relay.ctl.Running? && t.up.tls.WantHandshake? && Consistent(t, h)
    ensures TunnelInv(q) && q.up == UpForce(t.up, h) && q.a == t.a && Part(t, q, TakenSince(t, q))
    ensures q.cut == (t.cut || h.ForceEof?)
  {
    hide TunnelInv;
    if Tells(h) {
      var mid := VerdictStep(t, h);
      q := ForceStep(mid, h);
      JoinParts(t, mid, q, TakenSince(t, mid), []);
      assert TakenSince(t, mid) + [] == TakenSince(t, q);
    } else {
      q := ForceStep(t, h);
    }
  }

  lemma EarlyPart(t: Tunnel, io: UpIo) returns (q: Tunnel)
    requires TunnelInv(t) && t.up.relay.ctl.Running? && t.up.phase.Handshaking? && t.up.tls.WantEarly?
    ensures TunnelInv(q) && q.a == t.a && Part(t, q, TakenSince(t, q)) && (q.cut ==> t.cut || io.force.ForceEof?)
    ensures var mid := UpEarly(t.up, io.early);
            q.up == if mid.relay.ctl.Running? then UpForce(mid, io.force) else mid
  {
    hide TunnelInv;
    UpFacts(t);
    var mid := EarlyStep(t, io.early);
    q := mid;
    if mid.up.relay.ctl.Running? {
      assert mid.up.tls.WantHandshake? && Consistent(mid, io.force);
      q := ForcePart(mid, io.force);
      JoinParts(t, mid, q, [], TakenSince(mid, q));
      assert TakenSince(t, q) == [] + TakenSince(mid, q);
    }
  }

  /** `clientHandshake`. */
  lemma HandshakePart(t: Tunnel, io: UpIo) returns (q: Tunnel)
    requires TunnelInv(t) && t.up.relay.ctl.Running? && t.up.phase.Handshaking? && Consistent(t, io.force)
    ensures TunnelInv(q) && q.up == UpHandshake(t.up, io) && q.a == t.a && Part(t, q, TakenSince(t, q))
    ensures q.cut ==> t.cut || (io.force.ForceEof? && (t.up.tls.WantEarly? || t.up.tls.WantHandshake?))
  {
    hide TunnelInv;
    match t.up.tls
    case WantHandshake(_) => q := ForcePart(t, io.force);
    case WantEarly => q := EarlyPart(t, io);
    case _ => q := SkipStep(t);
  }

  lemma CheckStep(t: Tunnel, failed: bool) returns (q: Tunnel)
    requires TunnelInv(t) && t.up.relay.ctl.Running? && t.up.phase.Connecting?
    ensures TunnelInv(q) && q.up == UpCheck(t.up, failed) && q.a == t.a && q.early == t.early && q.cut == t.cut && Part(t, q, [])
  {
    hide TunnelInv;
    UpFacts(t);
    q := OneStep(t, SoError(failed));
  }

  lemma FirstSendStep(t: Tunnel, w: SendOutcome) returns (q: Tunnel)
    requires TunnelInv(t) && t.up.relay.ctl.Running? && t.up.phase.SendingReq? && (t.cut ==> Mute(w))
    ensures TunnelInv(q) && q.up == UpRequest(t.up, w) && q.a == t.a && q.early == t.early && q.cut == t.cut
    ensures Part(t, q, if t.up.relay.buf.Used() > 0 then Puts(t.up.relay.buf, w) else [])
  {
    hide TunnelInv, UpRequest, Puts, NewDownstream;
    UpFacts(t);
    q := OneStep(t, FirstSend(w));
  }

  lemma RelayRecvStep(t: Tunnel, k: Take) returns (q: Tunnel)
    requires TunnelInv(t) && t.up.relay.ctl.Running? && t.up.phase.Streaming? && t.up.relay.mode.Receiving? && CanTake(t.a, k)
    ensures TunnelInv(q) && q.up == t.up.(relay := RecvStep(t.up.relay, Answer(t.a, k)))
    ensures q.early == t.early && q.cut == t.cut && Part(t, q, [])
  {
    hide TunnelInv, RecvStep, Gets, Answer;
    UpFacts(t);
    q := OneStep(t, UpRelayRecv(k));
  }

  lemma RelaySendStep(t: Tunnel, w: SendOutcome) returns (q: Tunnel)
    requires TunnelInv(t) && t.up.relay.ctl.Running? && t.up.phase.Streaming? && t.up.relay.mode.Sending? && (t.cut ==> Mute(w))
    ensures q.up == t.up.(relay := SendStep(t.up.relay, w)) && q.early == t.early && Part(t, q, Puts(t.up.relay.buf, w))
  {
    hide TunnelInv, SendStep, Puts;
    UpFacts(t);
    q := OneStep(t, UpRelaySend(w));
  }

  /** The relaying part of an upstreamer's call. */
  lemma RelayPart(t: Tunnel, k: Take, w: SendOutcome) returns (q: Tunnel)
    requires TunnelInv(t) && t.up.relay.ctl.Running? && t.up.phase.Streaming? && CanTake(t.a, k) && (t.cut ==> Mute(w))
    ensures q.up == t.up.(relay := Process(t.up.relay, Answer(t.a, k), w)) && q.early == t.early
    ensures Part(t, q, ProcessPuts(t.up.relay, Answer(t.a, k), w))
  {
    hide TunnelInv, RecvStep, SendStep;
    RecvGoesOn(t.up.relay, Answer(t.a, k));
    if t.up.relay.mode.Receiving? {
      var mid := RelayRecvStep(t, k);
      q := mid;
      if mid.up.relay.ctl.Running? {
        q := RelaySendStep(mid, w);
        JoinParts(t, mid, q, [], Puts(mid.up.relay.buf, w));
        assert [] + Puts(mid.up.relay.buf, w) == Puts(mid.up.relay.buf, w);
      }
    } else {
      q := RelaySendStep(t, w);
    }
  }

  /** The first three states, up to the request. */
  lemma ConnectPart(t: Tunnel, io: UpIo) returns (q: Tunnel)
    requires TunnelInv(t) && t.up.relay.ctl.Running? && Consistent(t, io.force)
    ensures TunnelInv(q) && q.a == t.a && Part(t, q, TakenSince(t, q))
    ensures q.cut ==> t.cut || (io.force.ForceEof? && (t.up.tls.WantEarly? || t.up.tls.WantHandshake?))
    ensures var s1 := if t.up.phase.Connecting? then UpCheck(t.up, io.soError) else t.up;
            q.up == if s1.relay.ctl.Running? && s1.phase.Handshaking? then UpHandshake(s1, io) else s1
  {
    hide TunnelInv;
    Stay(t);
    var mid := t;
    if t.up.phase.Connecting? {
      mid := CheckStep(t, io.soError);
    }
    q := mid;
    if mid.up.relay.ctl.Running? && mid.up.phase.Handshaking? {
      q := HandshakePart(mid, io);
      JoinParts(t, mid, q, [], TakenSince(mid, q));
    }
  }

  /** The request and the relay. */
  lemma SendPart(t: Tunnel, io: UpIo, k: Take) returns (q: Tunnel, sent: seq<byte>)
    requires TunnelInv(t) && CanTake(t.a, k) && io.recv == Answer(t.a, k)
    requires t.cut ==> Mute(io.request) && Mute(io.send)
    ensures Part(t, q, sent) && q.early == t.early
    ensures var req := t.up.relay.ctl.Running? && t.up.phase.SendingReq?;
            var s3 := if req then UpRequest(t.up, io.request) else t.up;
            var on := s3.relay.ctl.Running? && s3.phase.Streaming?;
            && q.up == (if on then s3.(relay := Process(s3.relay, io.recv, io.send)) else s3)
            && sent == (if req && t.up.relay.buf.Used() > 0 then Puts(t.up.relay.buf, io.request) else []) +
                       (if on then ProcessPuts(s3.relay, io.recv, io.send) else [])
  {
    hide TunnelInv;
    Stay(t);
    var mid, x := t, [];
    if t.up.relay.ctl.Running? && t.up.phase.SendingReq? {
      mid := FirstSendStep(t, io.request);
      x := if t.up.relay.buf.Used() > 0 then Puts(t.up.relay.buf, io.request) else [];
    }
    q, sent := mid, x;
    if mid.up.relay.ctl.Running? && mid.up.phase.Streaming? {
      q := RelayPart(mid, k, io.send);
      var y := ProcessPuts(mid.up.relay, io.recv, io.send);
      JoinParts(t, mid, q, x, y);
      sent := x + y;
    }
  }

  /** `ProxifierUpstreamer::process`: from any reachable state, the class's whole call is a run
      of the tunnel in which only this reactor acts. The proxy's socket receives the early data
      the server took during the call, then exactly the bytes the method returns. */
  lemma UpCallIsRun(t: Tunnel, io: UpIo, k: Take) returns (q: Tunnel)
    requires TunnelInv(t) && t.up.relay.ctl.Running? && Consistent(t, io.force) && Silenced(t, io)
    requires CanTake(t.a, k) && io.recv == Answer(t.a, k)
    ensures Leads(t, q) && OthersIdle(t, q) && q.up == UpProcess(t.up, io)
    ensures !t.up.phase.Fresh? && !t.up.phase.Opening? ==> !q.up.relay.ctl.Running?
    ensures q.p.b.sent == t.p.b.sent + TakenSince(t, q) + UpProcessPuts(t.up, io)
  {
    hide TunnelInv;
    var mid := ConnectPart(t, io);
    var sent;
    q, sent := SendPart(mid, io, k);
    JoinParts(t, mid, q, TakenSince(t, mid), sent);
    assert t.p.b.sent + (TakenSince(t, mid) + sent) == t.p.b.sent + TakenSince(t, mid) + sent;
    if !t.up.phase.Fresh? && !t.up.phase.Opening? {
      UpReturns(t.up, io);
    }
  }

  // ----- the proxifier's downstreamer -----

  /** A run in which only the downstreamer acts, writing `sent` to the application. */
  ghost predicate DownPart(t: Tunnel, q: Tunnel, sent: seq<byte>) {
    && Leads(t, q) && q.a == t.a && q.up == t.up && q.p.srv == t.p.srv && q.p.b == t.p.b
    && q.f.sent == t.f.sent + sent
  }

  lemma JoinDownParts(t: Tunnel, q: Tunnel, r: Tunnel, y: seq<byte>)
    requires DownPart(t, q, []) && DownPart(q, r, y)
    ensures DownPart(t, r, y)
  {
    LeadsOn(t, q, r);
  }

  lemma ReplyStep(t: Tunnel, k: Take) returns (q: Tunnel)
    requires TunnelInv(t) && t.down.Some? && t.down.value.relay.ctl.Running? && !t.down.value.phase.DownStream? && CanTake(t.p.e, k)
    ensures TunnelInv(q) && DownPart(t, q, []) && q.p.e == After(t.p.e, t.down.value.relay.buf, k)
    ensures q.down == Some(DownRead(t.down.value, Answer(t.p.e, k)))
  {
    hide TunnelInv, DownRead, Gets, Answer;
    q := OneStep(t, DownReply(k));
  }

  lemma DownRecvStep(t: Tunnel, k: Take) returns (q: Tunnel)
    requires TunnelInv(t) && t.down.Some? && CanTake(t.p.e, k)
    requires var d := t.down.value; d.relay.ctl.Running? && d.phase.DownStream? && d.relay.mode.Receiving?
    ensures TunnelInv(q) && DownPart(t, q, [])
    ensures q.down == Some(t.down.value.(relay := RecvStep(t.down.value.relay, Answer(t.p.e, k))))
  {
    hide TunnelInv, RecvStep, Gets, Answer;
    q := OneStep(t, DownRelayRecv(k));
  }

  lemma DownSendStep(t: Tunnel, w: SendOutcome) returns (q: Tunnel)
    requires TunnelInv(t) && t.down.Some?
    requires var d := t.down.value; d.relay.ctl.Running? && d.phase.DownStream? && d.relay.mode.Sending?
    ensures DownPart(t, q, Puts(t.down.value.relay.buf, w))
    ensures q.down == Some(t.down.value.(relay := SendStep(t.down.value.relay, w)))
  {
    hide TunnelInv, SendStep, Puts;
    q := OneStep(t, DownRelaySend(w));
  }

  lemma DownRelayPart(t: Tunnel, l: Take, w: SendOutcome) returns (q: Tunnel)
    requires TunnelInv(t) && t.down.Some? && CanTake(t.p.e, l)
    requires t.down.value.relay.ctl.Running? && t.down.value.phase.DownStream?
    ensures var d := t.down.value;
            && q.down == Some(d.(relay := Process(d.relay, Answer(t.p.e, l), w)))
            && DownPart(t, q, ProcessPuts(d.relay, Answer(t.p.e, l), w))
  {
    hide TunnelInv, RecvStep, SendStep;
    RecvGoesOn(t.down.value.relay, Answer(t.p.e, l));
    if t.down.value.relay.mode.Receiving? {
      var mid := DownRecvStep(t, l);
      q := mid;
      if mid.down.value.relay.ctl.Running? {
        q := DownSendStep(mid, w);
        JoinDownParts(t, mid, q, Puts(mid.down.value.relay.buf, w));
      }
    } else {
      q := DownSendStep(t, w);
    }
  }

  /** `ProxifierDownstreamer::process`, likewise; `k` and `l` are the kernel's answers to the
      read of a waiting state and to the relay's read. */
  lemma DownCallIsRun(t: Tunnel, k: Take, l: Take, w: SendOutcome) returns (q: Tunnel)
    requires TunnelInv(t) && t.down.Some? && t.down.value.relay.ctl.Running? && CanTake(t.p.e, k)
    requires CanTake(AfterFirst(t, k), l)
    ensures var d := t.down.value;
            var first, r := Answer(t.p.e, k), Answer(AfterFirst(t, k), l);
            var mid := if d.phase.DownStream? then d else DownRead(d, first);
            && q.down == Some(DownProcess(d, first, r, w)) && !q.down.value.relay.ctl.Running?
            && DownPart(t, q, if mid.relay.ctl.Running? && mid.phase.DownStream? then ProcessPuts(mid.relay, r, w) else [])
  {
    hide TunnelInv;
    Stay(t);
    var mid := t;
    if !t.down.value.phase.DownStream? {
      mid := ReplyStep(t, k);
    }
    q := mid;
    if mid.down.value.relay.ctl.Running? && mid.down.value.phase.DownStream? {
      q := DownRelayPart(mid, l, w);
      JoinDownParts(t, mid, q, ProcessPuts(mid.down.value.relay, Answer(AfterFirst(t, k), l), w));
    }
    DownReturns(t.down.value, Answer(t.p.e, k), Answer(AfterFirst(t, k), l), w);
  }

  /** The proxy's output once the waiting state, if any, has had its read. */
  function AfterFirst(t: Tunnel, k: Take): Pipe
    requires t.down.Some?
  {
    if t.down.value.phase.DownStream? then t.p.e else After(t.p.e, t.down.value.relay.buf, k)
  }

  // ----- the proxy -----

  lemma {:induction false} AppendEvents(p: World, xs: seq<ProxyWorlds.Event>, ys: seq<ProxyWorlds.Event>)
    ensures ProxyWorlds.Run(p, xs + ys) == ProxyWorlds.Run(ProxyWorlds.Run(p, xs), ys)
    decreases |xs|
  {
    if xs == [] {
      assert xs + ys == ys;
    } else {
      assert (xs + ys)[0] == xs[0] && (xs + ys)[1..] == xs[1..] + ys;
      AppendEvents(ProxyWorlds.Next(p, xs[0]), xs[1..], ys);
    }
  }

  lemma TwoEvents(p: World, x: ProxyWorlds.Event, y: ProxyWorlds.Event)
    ensures ProxyWorlds.Run(p, [x, y]) == ProxyWorlds.Next(ProxyWorlds.Next(p, x), y)
  {
    var mid := ProxyWorlds.Next(p, x);
    assert [x, y][1..] == [y];
    assert ProxyWorlds.Run(ProxyWorlds.Next(mid, y), [y][1..]) == ProxyWorlds.Next(mid, y);
  }

  /** Reading the TFO payload and connecting. */
  lemma TfoRun(p: World, t: Take, io: SrvIo)
    requires WorldInv(p) && p.srv.relay.ctl.Running? && p.srv.phase.ReadingTfo?
    requires CanTake(p.b, t) && io.r == Answer(p.b, t)
    ensures var q := ProxyWorlds.Run(p, [ReadTfo(t), DoConnect(io.o)]);
            q.srv == SrvTfoThenConnect(p.srv, io) && q.c.sent == p.c.sent + SrvTfoPuts(p.srv, io)
  {
    hide WorldInv, TfoRest, Gets, Answer, After;
    TwoEvents(p, ReadTfo(t), DoConnect(io.o));
    var mid := ProxyWorlds.Next(p, ReadTfo(t));
    assert mid.srv == SrvTfo(p.srv, io.r) && mid.c == p.c;
  }

  lemma SrvRelayRun(p: World, t: Take, w: SendOutcome)
    requires WorldInv(p) && CanTake(p.b, t)
    ensures var q := ProxyWorlds.Run(p, [UpRecv(t), UpSend(w)]);
            var on := p.srv.relay.ctl.Running? && p.srv.phase.Relaying?;
            && q.srv == (if on then p.srv.(relay := Process(p.srv.relay, Answer(p.b, t), w)) else p.srv)
            && q.c.sent == p.c.sent + if on then ProcessPuts(p.srv.relay, Answer(p.b, t), w) else []
  {
    hide WorldInv, RecvStep, SendStep, Puts, Gets, Answer;
    RecvGoesOn(p.srv.relay, Answer(p.b, t));
    TwoEvents(p, UpRecv(t), UpSend(w));
    var mid := ProxyWorlds.Next(p, UpRecv(t));
    assert mid.c.sent == p.c.sent;
  }

  /** The system calls of one `ProxyUpstreamer::process`, by the state it starts in. */
  function SrvEvents(s: Server, t: Take, io: SrvIo): seq<ProxyWorlds.Event> {
    match s.phase
    case ReadingReq => [ReadReq(t, io.auth)]
    case ReadingTfo(_) => [ReadTfo(t), DoConnect(io.o)]
    case AwaitingConnect => [ConnectResult(io.code, io.ok, io.bind)] + [UpRecv(t), UpSend(io.w)]
    case Relaying => [UpRecv(t), UpSend(io.w)]
    case _ => []
  }

  lemma OneEvent(p: World, x: ProxyWorlds.Event)
    ensures ProxyWorlds.Run(p, [x]) == ProxyWorlds.Next(p, x)
  {
    assert ProxyWorlds.Run(ProxyWorlds.Next(p, x), [x][1..]) == ProxyWorlds.Next(p, x);
  }

  lemma ReadReqRun(p: World, t: Take, io: SrvIo)
    requires WorldInv(p) && p.srv.relay.ctl.Running? && p.srv.phase.ReadingReq? && |Pack(io.auth)| <= HEADROOM
    requires CanTake(p.b, t) && io.r == Answer(p.b, t)
    ensures var q := ProxyWorlds.Run(p, [ReadReq(t, io.auth)]);
            q.srv == SrvReadReq(p.srv, io.r, io.auth) && q.c == p.c
  {
    hide WorldInv, SrvReadReq;
    OneEvent(p, ReadReq(t, io.auth));
  }

  lemma ConnectedRun(p: World, t: Take, io: SrvIo)
    requires WorldInv(p) && p.srv.relay.ctl.Running? && p.srv.phase.AwaitingConnect? && |Pack(io.bind)| <= HEADROOM
    requires CanTake(p.b, t) && io.rr == Answer(p.b, t)
    ensures var q := ProxyWorlds.Run(p, [ConnectResult(io.code, io.ok, io.bind)] + [UpRecv(t), UpSend(io.w)]);
            q.srv == SrvProcess(p.srv, io) && q.c.sent == p.c.sent + SrvProcessPuts(p.srv, io)
  {
    hide WorldInv, Process, ProcessPuts, Gets, Answer, After, Loaded, Pack;
    var ev := ConnectResult(io.code, io.ok, io.bind);
    var mid := ProxyWorlds.Next(p, ev);
    AppendEvents(p, [ev], [UpRecv(t), UpSend(io.w)]);
    OneEvent(p, ev);
    ProxyWorlds.NextKeeps(p, ev);
    assert mid.srv == SrvConnected(p.srv, io.code, io.ok, io.bind) && mid.c == p.c && mid.b == p.b;
    SrvRelayRun(mid, t, io.w);
  }

  /** `ProxyUpstreamer::process`: from any reachable state, the class's whole call is a run of
      the proxy, and it writes to the remote exactly the bytes the method returns. */
  lemma SrvCallIsRun(p: World, t: Take, io: SrvIo)
    requires WorldInv(p) && p.srv.relay.ctl.Running? && |Pack(io.auth)| <= HEADROOM && |Pack(io.bind)| <= HEADROOM
    requires CanTake(p.b, t) && io.r == io.rr == Answer(p.b, t)
    ensures var q := ProxyWorlds.Run(p, SrvEvents(p.srv, t, io));
            && q.srv == SrvProcess(p.srv, io) && q.c.sent == p.c.sent + SrvProcessPuts(p.srv, io)
            && (SrvEvents(p.srv, t, io) != [] ==> !q.srv.relay.ctl.Running?)
  {
    if SrvEvents(p.srv, t, io) != [] {
      SrvReturns(p.srv, io);
    }
    match p.srv.phase
    case ReadingReq => ReadReqRun(p, t, io);
    case ReadingTfo(_) => TfoRun(p, t, io);
    case AwaitingConnect => ConnectedRun(p, t, io);
    case Relaying => SrvRelayRun(p, t, io.w);
    case _ =>
  }

  /** `AuthServer::process`, up to and including the connect when authentication succeeded. */
  lemma AuthCallIsRun(p: World, w: SendOutcome, socketOk: bool, t: Take, io: SrvIo)
    requires WorldInv(p) && p.srv.auth.Auth? && p.srv.auth.ctl.Running?
    requires CanTake(p.b, t) && io.r == Answer(p.b, t)
    ensures var mid := ProxyWorlds.Next(p, AuthWrite(w));
            var q := if mid.srv.phase.Honoring?
                     then ProxyWorlds.Run(ProxyWorlds.Next(mid, MakeSocket(socketOk)), [ReadTfo(t), DoConnect(io.o)]) else mid;
            && q.srv == AuthProcess(p.srv, w, socketOk, io)
            && q.srv.auth.Auth? && !q.srv.auth.ctl.Running? && !q.srv.relay.ctl.Running?
            && q.e.sent == p.e.sent + Puts(p.srv.auth.buf, w)
            && q.c.sent == p.c.sent + if mid.srv.phase.Honoring? then SrvHonorPuts(mid.srv, socketOk, io) else []
  {
    hide WorldInv, AuthSend, SrvHonorConnect, SrvHonorPuts, Puts;
    var mid := ProxyWorlds.Next(p, AuthWrite(w));
    ProxyWorlds.NextKeeps(p, AuthWrite(w));
    AuthStarts(p);
    AuthReturns(p.srv, w, socketOk, io);
    assert mid.srv == AuthSend(p.srv, w) && mid.b == p.b && mid.c == p.c;
    if mid.srv.phase.Honoring? {
      AuthFacts(p, w);
      HonorRun(mid, socketOk, t, io);
    }
  }

  lemma AuthStarts(p: World)
    requires WorldInv(p) && p.srv.auth.Auth? && p.srv.auth.ctl.Running?
    ensures p.srv.phase.AwaitingAuth? && p.srv.request.Some? && !p.srv.relay.ctl.Running?
  {
  }

  lemma AuthFacts(p: World, w: SendOutcome)
    requires WorldInv(p) && p.srv.auth.Auth? && p.srv.auth.ctl.Running?
    ensures AuthSend(p.srv, w).phase.Honoring? ==> AuthSend(p.srv, w).relay.ctl.Running?
  {
    assert p.srv.phase.AwaitingAuth?;
  }

  lemma HonorRun(p: World, socketOk: bool, t: Take, io: SrvIo)
    requires WorldInv(p) && p.srv.phase.Honoring? && p.srv.relay.ctl.Running?
    requires CanTake(p.b, t) && io.r == Answer(p.b, t)
    ensures var q := ProxyWorlds.Run(ProxyWorlds.Next(p, MakeSocket(socketOk)), [ReadTfo(t), DoConnect(io.o)]);
            && q.srv == SrvHonorConnect(p.srv, socketOk, io) && q.e == p.e
            && q.c.sent == p.c.sent + SrvHonorPuts(p.srv, socketOk, io)
  {
    hide SrvTfoThenConnect, SrvTfoPuts, TfoRest, Gets, Answer, After;
    var mid := ProxyWorlds.Next(p, MakeSocket(socketOk));
    ProxyWorlds.NextKeeps(p, MakeSocket(socketOk));
    TwoEvents(mid, ReadTfo(t), DoConnect(io.o));
    if mid.srv.phase.ReadingTfo? {
      TfoRun(mid, t, io);
    }
  }

  /** A downstreamer of the proxy: the plain relay, preloaded with its reply. */
  lemma ReplyCallIsRun(p: World, t: Take, w: SendOutcome)
    requires WorldInv(p) && !p.srv.reply.NoReply? && p.srv.reply.out.ctl.Running? && CanTake(p.d, t)
    requires p.srv.reply.Connect? || p.srv.reply.out.mode.Sending?
    ensures var q := ProxyWorlds.Run(p, [ReplyRecv(t), ReplySend(w)]);
            var out := p.srv.reply.out;
            && q.srv == p.srv.(reply := SetOut(p.srv.reply, Process(out, Answer(p.d, t), w)))
            && !Process(out, Answer(p.d, t), w).ctl.Running?
            && q.e.sent == p.e.sent + ProcessPuts(out, Answer(p.d, t), w)
  {
    hide WorldInv, RecvStep, SendStep, Puts, Gets, Answer;
    RecvGoesOn(p.srv.reply.out, Answer(p.d, t));
    ProcessReturns(p.srv.reply.out, Answer(p.d, t), w);
    TwoEvents(p, ReplyRecv(t), ReplySend(w));
    var mid := ProxyWorlds.Next(p, ReplyRecv(t));
    assert mid.e.sent == p.e.sent;
  }
}
