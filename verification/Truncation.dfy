/** Why the tunnel needs requests of at most 255 bytes: `prepend` takes its length as a
    `uint8_t`. For a longer packed request there is always a run in which the request that
    arrives is not the one that was made. */
module Truncation {
  import opened Wrappers
  import opened Codec
  import opened Buffers
  import opened Logs
  import opened Relays
  import opened ProxifierReactors
  import opened ProxyReactors
  import opened ProxyWorlds
  import opened Tunnels
  import opened Calls

  /** What a tunnel promises of a state. */
  predicate Transparent(t: Tunnel, request: Message) {
    && t.p.c.sent <= t.a.sent
    && t.f.sent <= t.p.d.sent
    && (t.p.srv.request.Some? ==> t.p.srv.request.value == request)
  }

  /** The request with its last byte changed. */
  function Altered(m: Message): Message
    requires m.options != []
  {
    var n := |m.options| - 1;
    m.(options := m.options[..n] + [if m.options[n] == 0 then 1 else 0])
  }

  lemma AlteredPack(m: Message)
    requires m.options != []
    ensures Altered(m) != m && |Pack(Altered(m))| == |Pack(m)|
    ensures Pack(Altered(m))[..|Pack(m)| - 1] == Pack(m)[..|Pack(m)| - 1]
  {
    assert Altered(m).options[|m.options| - 1] != m.options[|m.options| - 1];
  }

  /** What the application writes: all of the altered request that `prepend` does not place. */
  function Tail(m: Message): seq<byte>
    requires m.options != []
  {
    Pack(Altered(m))[|Pack(m)| % 256..]
  }

  /** `start` leaves the altered request in the buffer. */
  lemma StartTruncates(m: Message)
    requires 255 < |Pack(m)| <= HEADROOM
    ensures var q := UpRead(NewUpstream(false), Received(Tail(m)), Pack(m));
            q == Upstream(Opening, NoTls, Relay(Receiving, Buf(HEADROOM - |Pack(m)| % 256, Pack(Altered(m))), true, true, Running, []))
  {
    hide Pack;
    AlteredPack(m);
    var n := |Pack(m)| % 256;
    var buf := NewUpstream(false).relay.buf;
    assert buf.Avail() == BUF_SIZE - HEADROOM >= |Tail(m)|;
    assert Tail(m)[..|Tail(m)|] == Tail(m);
    var b := SockRecv(buf, Received(Tail(m))).buf;
    assert b == Buf(HEADROOM, Tail(m));
    assert Pack(m)[..n] == Pack(m)[..|Pack(m)| - 1][..n] == Pack(Altered(m))[..n];
    assert Pack(m)[..n] + Tail(m) == Pack(Altered(m));
  }

  /** The rest of the connection's opening sends it all. */
  function Opened(s: Upstream): Upstream {
    UpSkip(UpCheck(UpWake(UpOpen(s, Connected, 0, false)), false))
  }

  lemma OpenedSends(s: Upstream)
    requires s.phase.Opening? && s.tls.NoTls? && s.relay.buf.data != [] && s.relay.srcOpen && s.relay.dstOpen
    ensures var q := Opened(s);
            && q.phase.SendingReq? && q.relay.ctl.Running? && q.relay.buf == s.relay.buf
            && Puts(q.relay.buf, Accepted(q.relay.buf.Used())) == s.relay.buf.data
  {
  }

  /** The application writes, and `start` reads it all. */
  lemma TruncatedStart(m: Message) returns (t: Tunnel)
    requires 255 < |Pack(m)| <= HEADROOM
    ensures Leads(NewTunnel(m, false), t) && t.p == NEW_WORLD && !t.cut
    ensures t.up == Upstream(Opening, NoTls, Relay(Receiving, Buf(HEADROOM - |Pack(m)| % 256, Pack(Altered(m))), true, true, Running, []))
  {
    var t0 := NewTunnel(m, false);
    var t1 := Do(t0, AppSend(Tail(m)));
    AlteredPack(m);
    assert t1.a == PipeState([] + Tail(m), 0, false) && t1.up == t0.up && t1.request == m && t1.p == t0.p;
    assert [] + Tail(m) == Tail(m) && Tail(m)[0..|Tail(m)|] == Tail(m);
    var k := TakeSome(|Tail(m)|);
    assert Answer(t1.a, k) == Received(Tail(m));
    StartTruncates(m);
    t := Do(t1, StartRead(k));
    StepLeads(t0, AppSend(Tail(m)));
    StepLeads(t1, StartRead(k));
    LeadsOn(t0, t1, t);
  }

  lemma UpStepLeads(t: Tunnel, x: Step, up: Upstream) returns (q: Tunnel)
    requires Can(t, x) && t.up.tls.NoTls? && t.p == NEW_WORLD
    requires || (x == StartOpen(Connected, 0, false) && up == UpOpen(t.up, Connected, 0, false))
             || (x == UpWakeup && up == UpWake(t.up))
             || (x == SoError(false) && up == UpCheck(t.up, false))
             || (x == SkipTls && up == UpSkip(t.up))
    ensures Leads(t, q) && q.up == up && q.p == NEW_WORLD && q.cut == t.cut
  {
    q := Do(t, x);
    StepLeads(t, x);
    if x.StartOpen? {
      assert t.up.relay.buf.data[..0] == [] && NEW_PIPE.sent + [] == NEW_PIPE.sent;
    }
  }

  lemma TruncatedOpens(t: Tunnel) returns (q: Tunnel)
    requires t.p == NEW_WORLD && t.up.phase.Opening? && t.up.tls.NoTls? && t.up.relay.ctl.Running?
    requires t.up.relay.buf.data != [] && t.up.relay.srcOpen && t.up.relay.dstOpen
    ensures Leads(t, q) && q.up == Opened(t.up) && q.p == NEW_WORLD && q.cut == t.cut
  {
    var u1 := UpOpen(t.up, Connected, 0, false);
    var t1 := UpStepLeads(t, StartOpen(Connected, 0, false), u1);
    var t2 := UpStepLeads(t1, UpWakeup, UpWake(u1));
    var t3 := UpStepLeads(t2, SoError(false), UpCheck(UpWake(u1), false));
    q := UpStepLeads(t3, SkipTls, Opened(t.up));
    LeadsOn(t, t1, t2);
    LeadsOn(t, t2, t3);
    LeadsOn(t, t3, q);
  }

  /** It is all sent, and the proxy takes it for the request. */
  lemma TruncatedSent(t: Tunnel, m: Message) returns (q: Tunnel)
    requires t.p == NEW_WORLD && t.up.phase.SendingReq? && t.up.relay.ctl.Running? && t.up.relay.buf.data == Pack(m) && !t.cut
    ensures Leads(t, q) && q.p == NEW_WORLD.(b := PipeState(Pack(m), 0, false))
  {
    var w := Accepted(|Pack(m)|);
    q := Do(t, FirstSend(w));
    assert Puts(t.up.relay.buf, w) == Pack(m) && NEW_PIPE.sent + Pack(m) == Pack(m);
    StepLeads(t, FirstSend(w));
  }

  lemma TruncatedRead(p: World, m: Message)
    requires p == NEW_WORLD.(b := PipeState(Pack(m), 0, false)) && |Pack(m)| <= HEADROOM
    ensures ProxyWorlds.Next(p, ReadReq(TakeSome(|Pack(m)|), SimpleMessage(AUTH_SUCCESS))).srv.request == Some(m)
  {
    ReadsWhole(m);
    assert Pack(m)[0..|Pack(m)|] == Pack(m);
    assert Answer(p.b, TakeSome(|Pack(m)|)) == Received(Pack(m));
  }

  lemma TruncatedArrives(t: Tunnel, m: Message) returns (q: Tunnel)
    requires t.p == NEW_WORLD && t.up.phase.SendingReq? && t.up.relay.ctl.Running? && t.up.relay.buf.data == Pack(m) && !t.cut
    requires |Pack(m)| <= HEADROOM
    ensures Leads(t, q) && q.p.srv.request == Some(m)
  {
    hide ProxyWorlds.Next, Pack;
    var t1 := TruncatedSent(t, m);
    var ev := ReadReq(TakeSome(|Pack(m)|), SimpleMessage(AUTH_SUCCESS));
    q := Do(t1, InProxy(ev));
    TruncatedRead(t1.p, m);
    StepLeads(t1, InProxy(ev));
    LeadsOn(t, t1, q);
  }

  lemma ReadsWhole(m: Message)
    requires |Pack(m)| <= HEADROOM
    ensures SrvReadReq(NEW_SERVER, Received(Pack(m)), SimpleMessage(AUTH_SUCCESS)).request == Some(m)
  {
    ParsePack(m, []);
    assert Pack(m) + [] == Pack(m) && [] + Pack(m) == Pack(m) && Pack(m)[..|Pack(m)|] == Pack(m);
  }

  /** A packed request of more than 255 bytes always has a run that is not transparent. */
  lemma LongRequestIsTruncated(m: Message) returns (q: Tunnel)
    requires 255 < |Pack(m)| <= HEADROOM
    ensures Leads(NewTunnel(m, false), q) && !Transparent(q, m)
  {
    var t := TruncatedStart(m);
    AlteredPack(m);
    OpenedSends(t.up);
    var u := TruncatedOpens(t);
    q := TruncatedArrives(u, Altered(m));
    LeadsOn(NewTunnel(m, false), t, u);
    LeadsOn(NewTunnel(m, false), u, q);
  }

  /** Of all requests that fit the proxifier's 17 KiB packing buffer, exactly those of at most
      255 packed bytes are carried by a tunnel that is transparent in every run. */
  lemma TransparentIffShort(m: Message)
    requires |Pack(m)| <= HEADROOM
    ensures (forall tls, es :: Transparent(Tunnels.Run(NewTunnel(m, tls), es), m)) <==> |Pack(m)| <= 255
  {
    if |Pack(m)| <= 255 {
      forall tls, es
        ensures Transparent(Tunnels.Run(NewTunnel(m, tls), es), m)
      {
        Transparency(m, tls, es);
      }
    } else {
      var q := LongRequestIsTruncated(m);
      var es :| Tunnels.Run(NewTunnel(m, false), es) == q;
      assert !Transparent(Tunnels.Run(NewTunnel(m, false), es), m);
    }
  }
}
