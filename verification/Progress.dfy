/** The way to the relay. Until they relay, the reactors of a tunnel go through their phases as
    their calls report success, and they wait, stop or give up only where a call gives them
    reason to: over every run the phase and the standing of each follow from what was reported
    and from the bytes that were read. */
module Progress {
  import opened Wrappers
  import opened Codec
  import opened Buffers
  import opened Logs
  import opened Relays
  import opened ProxifierReactors
  import opened ProxyReactors
  import opened ProxyWorlds
  import opened Tunnels
  import opened Fates

  // ----- the proxifier's upstreamer -----

  /** What was reported to it: the first read was made, the connect started and then succeeded,
      the handshake is over, the request is on its way, a call failed, the first send took
      nothing. `blocked`: the direction in which the call it returned from blocked. */
  datatype Trail = Trail(t: Tunnel, read: bool, begun: bool, checked: bool, shaken: bool, requested: bool,
                         failed: bool, stopped: bool, blocked: Option<Dir>)

  predicate Blank(t: Tunnel) { |t.up.relay.buf.data| == 0 }

  /** What a step reports. */
  function Mark(r: Trail, e: Step): Trail {
    if !Can(r.t, e) then r else
    match e
    case StartRead(k) => if k.TakeFailed? then r.(failed := true) else r.(read := true)
    case StartOpen(o, _, _) => if o.ConnectFailed? then r.(failed := true) else r.(begun := true)
    case UpWakeup => if r.t.up.relay.ctl.Armed? then r.(blocked := None) else r
    case SoError(failed) => if failed then r.(failed := true) else r.(checked := true)
    case SkipTls => r.(shaken := true)
    case EarlyWrite(w) =>
      if w.SendFailed? then r.(failed := true) else if w.SendAgain? then r.(blocked := Some(w.dir)) else r
    case Handshake(h) =>
      if h.ForceFailed? then r.(failed := true) else if h.ForceAgain? then r.(blocked := Some(h.dir)) else r.(shaken := true)
    case FirstSend(w) =>
      if Blank(r.t) then r.(requested := true)
      else if w.SendFailed? then r.(failed := true)
      else if w.SendAgain? then r.(blocked := Some(w.dir))
      else if NothingSent(r.t.up.relay.buf, w) then r.(stopped := true)
      else r.(requested := true)
    case _ => r
  }

  function Follow(r: Trail, e: Step): Trail { Mark(r, e).(t := Do(r.t, e)) }

  function FollowAll(r: Trail, es: seq<Step>): Trail
    decreases |es|
  {
    if es == [] then r else FollowAll(Follow(r, es[0]), es[1..])
  }

  function NewTrail(request: Message, tls: bool): Trail {
    Trail(NewTunnel(request, tls), false, false, false, false, false, false, false, None)
  }

  /** Phase and standing, from the reports. */
  ghost predicate Traced(r: Trail) {
    var up := r.t.up;
    && up.phase == (if !r.read then UpPhase.Fresh else if !r.begun then Opening else if !r.checked then Connecting
                    else if !r.shaken then Handshaking else if !r.requested then SendingReq else Streaming)
    && (r.begun ==> r.read) && (r.checked ==> r.begun) && (r.shaken ==> r.checked) && (r.requested ==> r.shaken)
    && (!r.requested ==>
          && (up.relay.ctl.Dead? <==> r.failed) && (up.relay.ctl.Idle? <==> r.stopped)
          && (up.relay.ctl.Armed? ==>
                && r.begun
                && up.relay.ctl == (if r.blocked.Some? then Armed(Dst, r.blocked.value)
                                    else if Blank(r.t) then Armed(Src, In) else Armed(Dst, Out))))
    && (up.relay.ctl.Running? ==> r.blocked.None? || r.requested)
  }

  /** What other steps leave alone. */
  predicate UpStep(e: Step) {
    e.StartRead? || e.StartOpen? || e.UpWakeup? || e.SoError? || e.SkipTls? || e.EarlyWrite? || e.Handshake? || e.FirstSend?
  }

  lemma OthersSpareUp(t: Tunnel, e: Step)
    requires !UpStep(e) && Can(t, e)
    ensures var q := Do(t, e).up;
            && q.phase == t.up.phase && (!t.up.phase.Streaming? ==>
                 q.relay.ctl == t.up.relay.ctl && q.relay.buf == t.up.relay.buf)
  {
    hide RecvStep, SendStep, ProxyWorlds.Next, DownRead, NewDownstream;
  }

  lemma StartReadTraced(r: Trail, k: Take)
    requires Traced(r) && Can(r.t, StartRead(k)) && UpControl(r.t) && |Pack(r.t.request)| <= 255
    ensures Traced(Follow(r, StartRead(k)))
  {
    hide ProxyWorlds.Next, NewDownstream, DownRead, Inv, Pack, RecvStep, SendStep, UpRead;
    ReadTraced(r.t.up, Answer(r.t.a, k), Pack(r.t.request));
  }

  lemma StartOpenTraced(r: Trail, o: ConnectOutcome, max: nat, early: bool)
    requires Traced(r) && UpControl(r.t) && Can(r.t, StartOpen(o, max, early))
    ensures Traced(Follow(r, StartOpen(o, max, early)))
  {
    hide ProxyWorlds.Next, NewDownstream, DownRead, Inv, Pack, RecvStep, SendStep;
  }

  lemma PlainTraced(r: Trail, e: Step)
    requires Traced(r) && Can(r.t, e) && (e.UpWakeup? || e.SoError? || e.SkipTls?)
    ensures Traced(Follow(r, e))
  {
    hide ProxyWorlds.Next, NewDownstream, DownRead, Inv, Pack, RecvStep, SendStep, UpRead, UpOpen, UpEarly, UpForce, UpRequest;
  }

  lemma ShakeTraced(r: Trail, e: Step)
    requires Traced(r) && Can(r.t, e) && (e.EarlyWrite? || e.Handshake?)
    ensures Traced(Follow(r, e))
  {
    hide ProxyWorlds.Next, NewDownstream, DownRead, Inv, Pack, RecvStep, SendStep, UpRead, UpOpen, UpRequest;
  }

  lemma FirstSendTraced(r: Trail, w: SendOutcome)
    requires Traced(r) && Can(r.t, FirstSend(w))
    ensures Traced(Follow(r, FirstSend(w)))
  {
    hide ProxyWorlds.Next, NewDownstream, DownRead, Inv, Pack, RecvStep, SendStep, UpRead, UpOpen, UpEarly, UpForce;
  }

  lemma UpTraced(r: Trail, e: Step)
    requires Traced(r) && UpStep(e) && Can(r.t, e) && UpControl(r.t) && |Pack(r.t.request)| <= 255
    ensures Traced(Follow(r, e))
  {
    hide Traced, Follow, UpControl, Pack;
    match e
    case StartRead(k) => StartReadTraced(r, k);
    case StartOpen(o, max, early) => StartOpenTraced(r, o, max, early);
    case EarlyWrite(_) => ShakeTraced(r, e);
    case Handshake(_) => ShakeTraced(r, e);
    case FirstSend(w) => FirstSendTraced(r, w);
    case UpWakeup => PlainTraced(r, e);
    case SoError(_) => PlainTraced(r, e);
    case SkipTls => PlainTraced(r, e);
  }

  lemma OtherTraced(r: Trail, e: Step)
    requires Traced(r) && !(UpStep(e) && Can(r.t, e))
    ensures Traced(Follow(r, e))
  {
    hide Do;
    DoRequest(r.t, e);
    if Can(r.t, e) {
      OthersSpareUp(r.t, e);
    }
  }

  lemma {:induction false} RunTraced(r: Trail, es: seq<Step>)
    requires TunnelInv(r.t) && Traced(r)
    ensures Traced(FollowAll(r, es)) && FollowAll(r, es).t == Tunnels.Run(r.t, es)
    decreases |es|
  {
    hide Traced, WorldInv, UpControl, EarlyControl, UpBytes, DownControl, DownBytes, Do, Mark;
    if es != [] {
      var e := es[0];
      DoKeeps(r.t, e);
      if UpStep(e) && Can(r.t, e) {
        UpTraced(r, e);
      } else {
        OtherTraced(r, e);
      }
      RunTraced(Follow(r, e), es[1..]);
    }
  }

  /** Over every run the upstreamer is where its calls have brought it: the phase is the first
      whose call has not succeeded yet; until it relays it is dead exactly if a call failed and
      idle exactly if its first send took nothing, and otherwise it runs, or waits on the proxy's
      side in the direction in which its last call blocked, or, right after the connect was
      started, for the event that its buffer calls for. */
  lemma UpstreamerProgress(request: Message, tls: bool, es: seq<Step>)
    requires |Pack(request)| <= 255
    ensures var r := FollowAll(NewTrail(request, tls), es);
            r.t == Tunnels.Run(NewTunnel(request, tls), es) && Traced(r)
  {
    hide TunnelInv, FollowAll;
    var first := Reachable(request, tls, []);
    RunTraced(NewTrail(request, tls), es);
  }

  /** A request of at most 255 bytes always fits in front. */
  lemma ReadTraced(up: Upstream, o: RecvOutcome, request: seq<byte>)
    requires up.relay.buf == Buf(HEADROOM, []) && |request| <= 255 && up.relay.ctl.Running?
    ensures var q := UpRead(up, o, request);
            if o.RecvFailed? then q.relay.ctl.Dead? && q.phase == up.phase else q.phase.Opening? && q.relay.ctl.Running?
  {
  }

  // ----- the proxifier's downstreamer -----

  /** How far the proxy's output, read up to here, has got: the authentication reply is not
      complete, or is no success or no reply at all; then the same for the operation reply, where
      a refusal is told apart; or both are there and successful. */
  datatype Stage = NeedAuth | AuthBad | NeedOp | OpBad | OpRefused | Ready

  function StageOf(bytes: seq<byte>): Stage {
    match Parse(bytes)
    case EndOfBuffer => NeedAuth
    case Parsed(m, n) => if m.code == AUTH_SUCCESS then OpStage(bytes[n..]) else AuthBad
    case _ => AuthBad
  }

  function OpStage(bytes: seq<byte>): Stage {
    match Parse(bytes)
    case EndOfBuffer => NeedOp
    case Parsed(m, _) => if m.code == OP_SUCCESS then Ready else OpRefused
    case _ => OpBad
  }

  /** What was reported to the downstreamer: a read failed or ended the stream before the
      authentication reply, a read ended it before the operation reply, or blocked. */
  datatype DownTrail = DownTrail(t: Tunnel, failed: bool, stopped: bool, blocked: Option<Dir>)

  function DownMark(r: DownTrail, e: Step): DownTrail {
    if !Can(r.t, e) then r else
    match e
    case DownWakeup => if r.t.down.Some? && r.t.down.value.relay.ctl.Armed? then r.(blocked := None) else r
    case DownReply(k) =>
      if k.TakeFailed? then r.(failed := true)
      else if k.TakeAgain? then r.(blocked := Some(k.dir))
      else if Gets(r.t.down.value.relay.buf, Answer(r.t.p.e, k)) != [] then r
      else if StageOf(Read(r.t.p.e)).NeedAuth? then r.(failed := true) else r.(stopped := true)
    case _ => r
  }

  function DownFollow(r: DownTrail, e: Step): DownTrail { DownMark(r, e).(t := Do(r.t, e)) }

  function DownFollowAll(r: DownTrail, es: seq<Step>): DownTrail
    decreases |es|
  {
    if es == [] then r else DownFollowAll(DownFollow(r, es[0]), es[1..])
  }

  /** Phase and standing of a downstreamer, from the bytes read and the reports. */
  ghost predicate DownStands(d: Downstream, st: Stage, failed: bool, stopped: bool, blocked: Option<Dir>) {
    && d.phase == (if st.NeedAuth? || st.AuthBad? then WaitAuth else if st.Ready? then DownStream else WaitOp)
    && (!st.Ready? ==>
          && (d.relay.ctl.Dead? <==> failed || st.AuthBad? || st.OpBad?)
          && (d.relay.ctl.Idle? <==> stopped || st.OpRefused?)
          && (d.relay.ctl.Armed? ==> d.relay.ctl == Armed(Src, if blocked.Some? then blocked.value else In))
          && (d.relay.ctl.Running? ==> blocked.None?))
  }

  ghost predicate DownTraced(r: DownTrail) {
    match r.t.down
    case None => !r.failed && !r.stopped && r.blocked.None?
    case Some(d) => DownStands(d, StageOf(Read(r.t.p.e)), r.failed, r.stopped, r.blocked)
  }

  /** Bytes that follow both replies change nothing. */
  lemma ReadyStays(x: seq<byte>, y: seq<byte>)
    requires StageOf(x).Ready?
    ensures StageOf(x + y).Ready?
  {
    hide Parse;
    var n := Parse(x).used;
    ParseStable(x, y);
    ParseStable(x[n..], y);
    assert (x + y)[n..] == x[n..] + y;
  }

  /** What was read before the buffered bytes: nothing, or a successful authentication reply. */
  ghost predicate Before(d: Downstream, read: seq<byte>) {
    if d.phase.WaitAuth? then read == d.relay.buf.data && StageOf(read).NeedAuth?
    else
      && Parse(read).Parsed? && Parse(read).message.code == AUTH_SUCCESS
      && d.relay.buf.data == read[Parse(read).used..] && Parse(d.relay.buf.data).EndOfBuffer?
  }

  lemma OpReadStands(d: Downstream, pre: seq<byte>)
    requires d.relay.ctl.Running? && d.phase.WaitOp?
    requires Parse(pre).Parsed? && Parse(pre).message.code == AUTH_SUCCESS && d.relay.buf.data == pre[Parse(pre).used..]
    ensures DownStands(DownOp(d), StageOf(pre), false, false, None)
  {
    hide Parse;
  }

  lemma AuthReadStands(d: Downstream)
    requires d.relay.ctl.Running? && d.phase.WaitAuth?
    ensures DownStands(DownAuth(d), StageOf(d.relay.buf.data), false, false, None)
  {
    hide Parse, DownOp;
    var data := d.relay.buf.data;
    if Parse(data).Parsed? && Parse(data).message.code == AUTH_SUCCESS {
      OpReadStands(d.(phase := WaitOp, relay := d.relay.(buf := d.relay.buf.Unuse(Parse(data).used))), data);
    }
  }

  lemma ReadStands(d: Downstream, o: RecvOutcome, read: seq<byte>)
    requires d.relay.ctl.Running? && !d.phase.DownStream? && d.relay.buf.Valid() && Before(d, read)
    ensures var got := Gets(d.relay.buf, o);
            var ends := got == [] && !o.RecvFailed? && !o.RecvAgain?;
            DownStands(DownRead(d, o), StageOf(read + got),
                       o.RecvFailed? || (ends && d.phase.WaitAuth?), ends && d.phase.WaitOp?,
                       if o.RecvAgain? then Some(o.dir) else None)
  {
    hide Parse, DownAuth, DownOp;
    var got := Gets(d.relay.buf, o);
    IoEffect(d.relay.buf, o, SendBroken);
    if got == [] {
      assert read + got == read;
    } else {
      var more := d.(relay := d.relay.(buf := SockRecv(d.relay.buf, o).buf));
      if d.phase.WaitAuth? {
        AuthReadStands(more);
      } else {
        ParseStable(read, got);
        assert (read + got)[Parse(read).used..] == d.relay.buf.data + got;
        OpReadStands(more, read + got);
      }
    }
  }

  lemma BeforeHolds(r: DownTrail)
    requires WorldInv(r.t.p) && DownControl(r.t) && DownBytes(r.t) && DownTraced(r)
    requires r.t.down.Some? && r.t.down.value.relay.ctl.Running? && !r.t.down.value.phase.DownStream?
    ensures Before(r.t.down.value, Read(r.t.p.e)) && !r.failed && !r.stopped && r.blocked.None?
    ensures StageOf(Read(r.t.p.e)).NeedAuth? <==> r.t.down.value.phase.WaitAuth?
  {
    hide Parse, Pack, Inv, Inbound, Outbound, Closing, Counters;
    var d := r.t.down.value;
    var read := Read(r.t.p.e);
    if d.phase.WaitAuth? {
      assert Stripped(r.t) + r.t.f.sent == [];
      assert read == d.relay.buf.data;
    } else {
      var a := r.t.p.srv.auth.reply;
      assert Stripped(r.t) + r.t.f.sent == Pack(a);
      assert read == Pack(a) + d.relay.buf.data;
      assert read[..|Pack(a)|] == Pack(a);
      ParseIff(read, a, |Pack(a)|);
      assert read[|Pack(a)|..] == d.relay.buf.data;
    }
  }

  lemma ReplyTraced(r: DownTrail, k: Take)
    requires WorldInv(r.t.p) && DownControl(r.t) && DownBytes(r.t) && DownTraced(r) && Can(r.t, DownReply(k))
    ensures DownTraced(DownFollow(r, DownReply(k)))
  {
    hide WorldInv, DownBytes, DownRead, StageOf, DownStands, Before, ProxyWorlds.Next;
    var d := r.t.down.value;
    var o := Answer(r.t.p.e, k);
    BeforeHolds(r);
    ReadStands(d, o, Read(r.t.p.e));
    TookEffect(r.t.p, d.relay.buf, k);
  }

  lemma StreamTraced(r: DownTrail, k: Take)
    requires WorldInv(r.t.p) && DownControl(r.t) && DownTraced(r) && Can(r.t, DownRelayRecv(k))
    ensures DownTraced(DownFollow(r, DownRelayRecv(k)))
  {
    hide WorldInv, RecvStep, StageOf, ProxyWorlds.Next, Parse;
    var d := r.t.down.value;
    TookEffect(r.t.p, d.relay.buf, k);
    ReadyStays(Read(r.t.p.e), Gets(d.relay.buf, Answer(r.t.p.e, k)));
  }

  lemma CreatedTraced(r: DownTrail, w: SendOutcome)
    requires UpControl(r.t) && DownControl(r.t) && DownTraced(r) && Can(r.t, FirstSend(w))
    ensures DownTraced(DownFollow(r, FirstSend(w)))
  {
    hide Pack, UpRequest, Puts;
    assert r.t.down.None?;
    assert Read(r.t.p.e) == [] && Read(Do(r.t, FirstSend(w)).p.e) == [];
  }

  /** What other steps leave alone. */
  lemma OthersSpareDown(t: Tunnel, e: Step)
    requires Can(t, e) && !e.DownReply? && !e.DownRelayRecv? && !e.FirstSend? && !e.InProxy?
    ensures var q := Do(t, e);
            && Read(q.p.e) == Read(t.p.e) && (q.down.Some? <==> t.down.Some?)
            && (t.down.Some? ==> q.down.value.phase == t.down.value.phase)
            && (t.down.Some? && !t.down.value.phase.DownStream? && !e.DownWakeup? ==>
                  q.down.value.relay.ctl == t.down.value.relay.ctl)
            && (t.down.Some? && e.DownWakeup? ==> q.down.value.relay.ctl == Wake(t.down.value.relay).ctl)
  {
    hide RecvStep, SendStep, UpRead, UpOpen, UpEarly, UpForce, Gets, Puts, Answer;
  }

  lemma InProxySparesDown(t: Tunnel, ev: ProxyWorlds.Event)
    requires WorldInv(t.p) && Can(t, InProxy(ev))
    ensures var q := Do(t, InProxy(ev)); q.down == t.down && Read(q.p.e) == Read(t.p.e)
  {
    hide ProxyWorlds.Next, Shape, AuthShape, Inbound, Outbound, Closing, Counters;
    NextStable(t.p, ev);
  }

  lemma RestTraced(r: DownTrail, e: Step)
    requires WorldInv(r.t.p) && DownTraced(r) && Can(r.t, e) && !e.DownReply? && !e.DownRelayRecv? && !e.FirstSend?
    ensures DownTraced(DownFollow(r, e))
  {
    hide Do, WorldInv, StageOf;
    if e.InProxy? {
      InProxySparesDown(r.t, e.ev);
    } else {
      OthersSpareDown(r.t, e);
    }
  }

  lemma DownStepTraced(r: DownTrail, e: Step)
    requires TunnelInv(r.t) && DownTraced(r)
    ensures DownTraced(DownFollow(r, e))
  {
    hide Do, WorldInv, UpControl, EarlyControl, UpBytes, DownControl, DownBytes, DownTraced;
    DoRequest(r.t, e);
    if Can(r.t, e) {
      match e
      case DownReply(k) => ReplyTraced(r, k);
      case DownRelayRecv(k) => StreamTraced(r, k);
      case FirstSend(w) => CreatedTraced(r, w);
      case _ => RestTraced(r, e);
    }
  }

  lemma {:induction false} DownRunTraced(r: DownTrail, es: seq<Step>)
    requires TunnelInv(r.t) && DownTraced(r)
    ensures DownTraced(DownFollowAll(r, es)) && DownFollowAll(r, es).t == Tunnels.Run(r.t, es)
    decreases |es|
  {
    hide DownTraced, TunnelInv, Do, DownMark;
    if es != [] {
      DoKeeps(r.t, es[0]);
      DownStepTraced(r, es[0]);
      DownRunTraced(DownFollow(r, es[0]), es[1..]);
    }
  }

  /** Over every run the downstreamer is where the bytes it has read have brought it: it relays
      exactly if they begin with two successful replies; before that it is dead exactly if they
      cannot be or did not bring a successful authentication reply, or a read failed or ended the
      stream too early, it stops exactly at a refused operation or the end of the stream before
      the answer, and otherwise it runs or waits for more. */
  lemma DownstreamerProgress(request: Message, tls: bool, es: seq<Step>)
    requires |Pack(request)| <= 255
    ensures var r := DownFollowAll(DownTrail(NewTunnel(request, tls), false, false, None), es);
            && r.t == Tunnels.Run(NewTunnel(request, tls), es)
            && (r.t.down.Some? ==> DownStands(r.t.down.value, StageOf(Read(r.t.p.e)), r.failed, r.stopped, r.blocked))
  {
    hide TunnelInv, DownFollowAll;
    var first := Reachable(request, tls, []);
    DownRunTraced(DownTrail(first, false, false, None), es);
  }

  // ----- the proxy's upstreamer and its AuthServer -----

  /** What was reported to them: a read brought nothing, a call failed for good, the reply could
      not be sent, and the directions in which their last calls blocked. */
  datatype SrvTrail = SrvTrail(p: World, ended: bool, failed: bool, unheard: bool, blocked: Option<Dir>, authBlocked: Option<Dir>)

  function SrvMark(r: SrvTrail, ev: ProxyWorlds.Event): SrvTrail {
    var s := r.p.srv;
    if !Enabled(r.p, ev) then r else
    match ev
    case Wakeup => r.(blocked := None)
    case ReadReq(t, _) => ReadMark(r, t)
    case ReadTfo(t) =>
      if |s.relay.buf.data| >= s.tfoPayload || (s.phase == ReadingTfo(true) && (t.TakeFailed? || t.TakeAgain?)) then r
      else ReadMark(r, t)
    case ConnectResult(code, ok, _) => if code == OP_SUCCESS && !ok then r.(failed := true) else r
    case AuthWakeup => if s.auth.Auth? && s.auth.ctl.Armed? then r.(authBlocked := None) else r
    case AuthWrite(w) =>
      if w.SendAgain? then r.(authBlocked := Some(w.dir))
      else if w.SendFailed? || NothingSent(s.auth.buf, w) then r.(unheard := true) else r
    case _ => r
  }

  function ReadMark(r: SrvTrail, t: Take): SrvTrail {
    if t.TakeFailed? then r.(failed := true)
    else if t.TakeAgain? then r.(blocked := Some(t.dir))
    else if Gets(r.p.srv.relay.buf, Answer(r.p.b, t)) == [] then r.(ended := true)
    else r
  }

  function SrvFollow(r: SrvTrail, ev: ProxyWorlds.Event): SrvTrail { SrvMark(r, ev).(p := ProxyWorlds.Next(r.p, ev)) }

  function SrvFollowAll(r: SrvTrail, evs: seq<ProxyWorlds.Event>): SrvTrail
    decreases |evs|
  {
    if evs == [] then r else SrvFollowAll(SrvFollow(r, evs[0]), evs[1..])
  }

  predicate InSetup(s: Server) {
    s.phase.Honoring? || s.phase.ReadingTfo? || s.phase.ConnectCall? || s.phase.AwaitingConnect?
  }

  /** While the request is being read, from the bytes read. */
  ghost predicate ReadStandsAt(s: Server, bytes: seq<byte>, ended: bool, failed: bool) {
    s.phase.ReadingReq? ==>
      && !Parse(bytes).Parsed?
      && (s.reply.VersionReply? <==> Parse(bytes).BadVersion?)
      && (s.relay.ctl.Dead? <==> failed || Parse(bytes).Malformed?)
      && (s.relay.ctl.Idle? <==> ended || Parse(bytes).BadVersion?)
  }

  ghost predicate SrvStands(s: Server, ended: bool, failed: bool, unheard: bool, blocked: Option<Dir>) {
    && (s.phase.AwaitingAuth? ==>
          && !ended && !failed && blocked.None? && s.auth.Auth?
          && (s.relay.ctl.Dead? <==> unheard || (s.auth.buf.data == [] && s.auth.reply.code != AUTH_SUCCESS))
          && (!s.relay.ctl.Dead? ==> s.relay.ctl.Idle?))
    && (InSetup(s) ==> (s.relay.ctl.Dead? <==> failed) && (s.relay.ctl.Idle? <==> ended))
    && (s.phase.Answered? ==> s.relay.ctl.Idle?)
    && (s.relay.ctl.Running? && !s.phase.Relaying? ==> blocked.None? && !ended && !failed)
    && (s.relay.ctl.Armed? && !s.phase.Relaying? ==>
          s.relay.ctl == if s.phase.AwaitingConnect? then Armed(Dst, Out) else Armed(Src, if blocked.Some? then blocked.value else In))
    && (s.phase.ReadingReq? ==> !unheard)
    && (s.phase.AwaitingConnect? && s.relay.ctl.Armed? ==> blocked.None?)
  }

  ghost predicate AuthStands(s: Server, unheard: bool, blocked: Option<Dir>) {
    s.auth.Auth? ==>
      && (s.auth.ctl.Dead? <==> unheard) && (s.auth.ctl.Idle? <==> !unheard && s.auth.buf.data == [])
      && (s.auth.ctl.Armed? ==> s.auth.ctl == Armed(Sock, if blocked.Some? then blocked.value else Out))
      && (s.auth.ctl.Running? ==> blocked.None?)
  }

  ghost predicate SrvTraced(r: SrvTrail) {
    && ReadStandsAt(r.p.srv, Read(r.p.b), r.ended, r.failed)
    && SrvStands(r.p.srv, r.ended, r.failed, r.unheard, r.blocked)
    && AuthStands(r.p.srv, r.unheard, r.authBlocked)
    && (r.p.srv.auth.NoAuth? ==> !r.unheard && r.authBlocked.None?)
  }

  lemma ParseStands(s: Server, a: Message)
    requires s.phase.ReadingReq? && s.relay.ctl.Running? && s.reply.NoReply? && s.auth.NoAuth?
    ensures var q := SrvParseReq(s, a);
            && ReadStandsAt(q, s.relay.buf.data, false, false) && SrvStands(q, false, false, false, None) && AuthStands(q, false, None)
            && (q.phase.ReadingReq? ==> q.auth.NoAuth?)
  {
    hide Parse, Loaded;
  }

  lemma RequestStands(s: Server, o: RecvOutcome, a: Message, read: seq<byte>)
    requires s.phase.ReadingReq? && s.relay.ctl.Running? && s.reply.NoReply? && s.auth.NoAuth? && s.relay.buf.Valid()
    requires read == s.relay.buf.data && Parse(read).EndOfBuffer?
    ensures var q, got := SrvReadReq(s, o, a), Gets(s.relay.buf, o);
            var ended := got == [] && !o.RecvFailed? && !o.RecvAgain?;
            && ReadStandsAt(q, read + got, ended, o.RecvFailed?)
            && SrvStands(q, ended, o.RecvFailed?, false, if o.RecvAgain? then Some(o.dir) else None)
            && AuthStands(q, false, None) && (q.phase.ReadingReq? ==> q.auth.NoAuth?)
  {
    hide Parse, SrvParseReq;
    IoEffect(s.relay.buf, o, SendBroken);
    var got := Gets(s.relay.buf, o);
    if got == [] {
      assert read + got == read;
    } else {
      ParseStands(s.(relay := s.relay.(buf := SockRecv(s.relay.buf, o).buf)), a);
    }
  }

  lemma ReadingFacts(p: World)
    requires WorldInv(p) && p.srv.phase.ReadingReq?
    ensures p.srv.auth.NoAuth? && p.srv.relay.buf.Valid() && p.srv.relay.buf.data == Read(p.b)
    ensures p.srv.relay.ctl.Running? ==> p.srv.reply.NoReply? && Parse(Read(p.b)).EndOfBuffer?
  {
    assert p.c.sent == [];
    assert RequestBytes(p.srv) + p.c.sent == [];
  }

  lemma ReadReqTraced(r: SrvTrail, t: Take, a: Message)
    requires WorldInv(r.p) && SrvTraced(r) && Enabled(r.p, ReadReq(t, a))
    ensures SrvTraced(SrvFollow(r, ReadReq(t, a)))
  {
    hide WorldInv, SrvReadReq, Parse;
    ReadingFacts(r.p);
    var s, o := r.p.srv, Answer(r.p.b, t);
    RequestStands(s, o, a, Read(r.p.b));
    TakeEffect(r.p.b, s.relay.buf, t);
    hide ReadStandsAt, SrvStands, AuthStands;
    assert r.blocked.None? && !r.ended && !r.failed && !r.unheard && r.authBlocked.None? by { RunningFacts(r); }
  }

  lemma RunningFacts(r: SrvTrail)
    requires SrvTraced(r) && r.p.srv.relay.ctl.Running? && !r.p.srv.phase.Relaying?
    ensures r.blocked.None? && !r.ended && !r.failed
    ensures r.p.srv.auth.NoAuth? ==> !r.unheard && r.authBlocked.None?
  {
  }

  // the AuthServer

  lemma DoneStands(s: Server)
    requires s.auth.Auth? && s.auth.ctl.Idle? && s.auth.buf.data == [] && s.auth.reply.code == AUTH_SUCCESS && s.request.Some?
    ensures var q := AuthDone(s); SrvStands(q, false, false, false, None) && AuthStands(q, false, None) && !q.phase.ReadingReq?
  {
    hide Loaded;
  }

  /** After some of the reply went out. */
  lemma AfterStands(s: Server)
    requires s.auth.Auth? && s.auth.ctl.Running? && s.phase.AwaitingAuth? && s.request.Some? && s.relay.ctl.Idle?
    ensures var q := AfterAuthSend(s); SrvStands(q, false, false, false, None) && AuthStands(q, false, None) && !q.phase.ReadingReq?
  {
    hide AuthDone;
    if s.auth.buf.data == [] && s.auth.reply.code == AUTH_SUCCESS {
      DoneStands(s.(auth := s.auth.(ctl := Idle)));
    }
  }

  lemma AuthSendStands(s: Server, w: SendOutcome)
    requires s.auth.Auth? && s.auth.ctl.Running? && s.phase.AwaitingAuth? && s.request.Some? && s.relay.ctl.Idle?
    requires s.auth.buf.Valid() && s.auth.buf.data != []
    ensures var q, unheard := AuthSend(s, w), w.SendFailed? || NothingSent(s.auth.buf, w);
            && SrvStands(q, false, false, unheard, None) && !q.phase.ReadingReq? && q.auth.Auth?
            && AuthStands(q, unheard, if w.SendAgain? then Some(w.dir) else None)
  {
    hide AfterAuthSend;
    IoEffect(s.auth.buf, RecvBroken, w);
    AuthSendSpares(s, w);
    var io := SockSend(s.auth.buf, w);
    if io.Bytes? && io.count > 0 {
      AfterStands(s.(auth := s.auth.(buf := io.buf)));
    } else if io.Bytes? {
      UnheardStands(s.(auth := s.auth.(buf := io.buf)));
    }
  }

  lemma UnheardStands(s: Server)
    requires s.auth.Auth? && s.auth.ctl.Running? && s.phase.AwaitingAuth? && s.auth.buf.data != []
    ensures var q := AfterAuthSend(AuthKill(s));
            SrvStands(q, false, false, true, None) && AuthStands(q, true, None) && q.phase.AwaitingAuth?
  {
  }

  lemma AuthTraced(r: SrvTrail, w: SendOutcome)
    requires WorldInv(r.p) && SrvTraced(r) && Enabled(r.p, AuthWrite(w))
    ensures SrvTraced(SrvFollow(r, AuthWrite(w)))
  {
    hide WorldInv, AuthSend, Puts;
    AuthWorks(r.p);
    AuthSendStands(r.p.srv, w);
  }

  lemma AuthWorks(p: World)
    requires WorldInv(p) && p.srv.auth.Auth? && p.srv.auth.ctl.Running?
    ensures p.srv.phase.AwaitingAuth? && p.srv.request.Some? && p.srv.auth.buf.Valid() && p.srv.auth.buf.data != []
  {
  }

  // setting up the remote connection

  lemma SocketStands(s: Server, ok: bool, unheard: bool)
    requires s.phase.Honoring? && s.relay.ctl.Running? && SrvStands(s, false, false, unheard, None)
    ensures var q := SrvSocket(s, ok);
            SrvStands(q, false, false, unheard, None) && q.auth == s.auth && !q.phase.ReadingReq?
  {
    hide Loaded;
  }

  lemma TfoStands(s: Server, o: RecvOutcome, unheard: bool)
    requires s.phase.ReadingTfo? && s.relay.ctl.Running? && s.relay.buf.Valid() && SrvStands(s, false, false, unheard, None)
    ensures var q, got := SrvTfo(s, o), Gets(s.relay.buf, o);
            var counts := |s.relay.buf.data| < s.tfoPayload && !(s.phase == ReadingTfo(true) && (o.RecvFailed? || o.RecvAgain?));
            && q.auth == s.auth && !q.phase.ReadingReq?
            && SrvStands(q, counts && got == [] && !o.RecvFailed? && !o.RecvAgain?, counts && o.RecvFailed?, unheard,
                         if counts && o.RecvAgain? then Some(o.dir) else None)
  {
    hide Loaded;
    IoEffect(s.relay.buf, o, SendBroken);
  }

  lemma ConnectStands(s: Server, o: ConnectOutcome, unheard: bool)
    requires s.phase.ConnectCall? && s.relay.ctl.Running? && SrvStands(s, false, false, unheard, None)
    ensures var q := SrvConnect(s, o);
            SrvStands(q, false, false, unheard, None) && q.auth == s.auth && !q.phase.ReadingReq?
  {
    hide Loaded, TfoRest;
  }

  lemma ConnectedStands(s: Server, code: byte, ok: bool, bind: Message, unheard: bool)
    requires s.phase.AwaitingConnect? && s.relay.ctl.Running? && SrvStands(s, false, false, unheard, None)
    ensures var q := SrvConnected(s, code, ok, bind);
            SrvStands(q, false, code == OP_SUCCESS && !ok, unheard, None) && q.auth == s.auth && !q.phase.ReadingReq?
  {
    hide Loaded;
  }

  lemma SetupTraced(r: SrvTrail, ev: ProxyWorlds.Event)
    requires WorldInv(r.p) && SrvTraced(r) && Enabled(r.p, ev)
    requires ev.MakeSocket? || ev.ReadTfo? || ev.DoConnect? || ev.ConnectResult?
    ensures SrvTraced(SrvFollow(r, ev))
  {
    hide WorldInv, SrvStands, SrvSocket, SrvTfo, SrvConnect, SrvConnected;
    var s := r.p.srv;
    assert !r.ended && !r.failed && r.blocked.None? by { RunningFacts(r); }
    SetupValid(r.p);
    match ev
    case MakeSocket(ok) => SocketStands(s, ok, r.unheard);
    case ReadTfo(t) => TfoStands(s, Answer(r.p.b, t), r.unheard);
    case DoConnect(o) => ConnectStands(s, o, r.unheard);
    case ConnectResult(code, ok, bind) => ConnectedStands(s, code, ok, bind, r.unheard);
  }

  lemma SetupValid(p: World)
    requires WorldInv(p)
    ensures p.srv.relay.buf.Valid()
  {
  }

  // everything else

  ghost predicate SameStanding(s: Server, q: Server) {
    && q.phase == s.phase && q.reply.VersionReply? == s.reply.VersionReply? && q.auth.Auth? == s.auth.Auth?
    && (!s.phase.Relaying? ==> q.relay.ctl == s.relay.ctl)
    && (s.auth.Auth? ==> q.auth.ctl == s.auth.ctl && q.auth.buf == s.auth.buf && q.auth.reply == s.auth.reply)
  }

  predicate Bystanding(ev: ProxyWorlds.Event) {
    ev.ClientSend? || ev.ClientFin? || ev.ClientTake? || ev.RemoteSend? || ev.RemoteFin? || ev.UpRecv? || ev.UpSend?
    || ev.ReplyWakeup? || ev.ReplyRecv? || ev.ReplySend? || ev.Gone? || ev.ReplyGone?
  }

  lemma BystandersSpare(p: World, ev: ProxyWorlds.Event)
    requires Enabled(p, ev) && Bystanding(ev)
    ensures SameStanding(p.srv, ProxyWorlds.Next(p, ev).srv)
    ensures p.srv.phase.ReadingReq? ==> Read(ProxyWorlds.Next(p, ev).b) == Read(p.b)
  {
    hide RecvStep, SendStep, Gets, Puts, Answer, Pack;
  }

  lemma BystandersTraced(r: SrvTrail, ev: ProxyWorlds.Event)
    requires SrvTraced(r) && Enabled(r.p, ev) && Bystanding(ev)
    ensures SrvTraced(SrvFollow(r, ev))
  {
    hide ProxyWorlds.Next, Parse;
    BystandersSpare(r.p, ev);
  }

  lemma WakeTraced(r: SrvTrail, ev: ProxyWorlds.Event)
    requires SrvTraced(r) && Enabled(r.p, ev) && (ev.Wakeup? || ev.AuthWakeup?) && WorldInv(r.p)
    ensures SrvTraced(SrvFollow(r, ev))
  {
    hide Parse, Pack, Inbound, Outbound, Closing, Counters, Inv;
  }

  lemma SrvStepTraced(r: SrvTrail, ev: ProxyWorlds.Event)
    requires WorldInv(r.p) && SrvTraced(r)
    ensures SrvTraced(SrvFollow(r, ev))
  {
    hide WorldInv, SrvTraced, ReadMark;
    if Enabled(r.p, ev) {
      match ev
      case ReadReq(t, a) => ReadReqTraced(r, t, a);
      case AuthWrite(w) => AuthTraced(r, w);
      case MakeSocket(_) => SetupTraced(r, ev);
      case ReadTfo(_) => SetupTraced(r, ev);
      case DoConnect(_) => SetupTraced(r, ev);
      case ConnectResult(_, _, _) => SetupTraced(r, ev);
      case Wakeup => WakeTraced(r, ev);
      case AuthWakeup => WakeTraced(r, ev);
      case _ => BystandersTraced(r, ev);
    }
  }

  lemma {:induction false} SrvRunTraced(r: SrvTrail, evs: seq<ProxyWorlds.Event>)
    requires WorldInv(r.p) && SrvTraced(r)
    ensures SrvTraced(SrvFollowAll(r, evs)) && SrvFollowAll(r, evs).p == ProxyWorlds.Run(r.p, evs)
    decreases |evs|
  {
    hide WorldInv, SrvTraced, SrvMark, ProxyWorlds.Next;
    if evs != [] {
      ProxyWorlds.NextKeeps(r.p, evs[0]);
      SrvStepTraced(r, evs[0]);
      SrvRunTraced(SrvFollow(r, evs[0]), evs[1..]);
    }
  }

  /** Over every run of a connection the proxy's reactors are where their calls have brought them.
      While no request is complete the upstreamer is dead exactly if a read failed or the bytes
      are malformed, and idle exactly if a read brought nothing or the version is wrong, which is
      then answered; while the AuthServer works it stands still, and dies exactly with it or after
      a reply that was no success; while the remote connection is set up it is dead exactly if a
      call failed for good and idle exactly if a read brought nothing. The AuthServer is dead
      exactly if its reply could not be sent and idle exactly once it is out. In between they run,
      or wait for the event that their last call asks for. */
  lemma ServerProgress(evs: seq<ProxyWorlds.Event>)
    ensures var r := SrvFollowAll(SrvTrail(NEW_WORLD, false, false, false, None, None), evs);
            && r.p == ProxyWorlds.Run(NEW_WORLD, evs)
            && ReadStandsAt(r.p.srv, Read(r.p.b), r.ended, r.failed)
            && SrvStands(r.p.srv, r.ended, r.failed, r.unheard, r.blocked)
            && AuthStands(r.p.srv, r.unheard, r.authBlocked)
  {
    hide SrvFollowAll;
    StartKeeps();
    SrvRunTraced(SrvTrail(NEW_WORLD, false, false, false, None, None), evs);
  }
}
