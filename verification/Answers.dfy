/** What the proxy answers to which request. Over every run of a connection, whatever client and
    remote do, the operation reply follows from the request's bytes and from what became of the
    remote connection. */
module Answers {
  import opened Wrappers
  import opened Codec
  import opened Buffers
  import opened Logs
  import opened Relays
  import opened ProxifierReactors
  import opened ProxyReactors
  import opened ProxyWorlds

  /** What became of the remote connection: nothing was reported yet, a step of setting it up
      failed and this is the code to answer, or it is up and bound to this address. */
  datatype Outcome = Unreported | Refused(code: byte) | Bound(bind: Message)

  datatype Case = Case(p: World, outcome: Outcome)

  /** The reports: no socket; no payload while the request is being honored (an exception of the
      first read, "not here yet" included); no connection; or the end of a connect. */
  function Reported(p: World, ev: ProxyWorlds.Event): Outcome {
    match ev
    case MakeSocket(ok) => if ok then Unreported else Refused(OP_FAILURE)
    case ReadTfo(t) =>
      if |p.srv.relay.buf.data| < p.srv.tfoPayload && (t.TakeFailed? || t.TakeAgain?) && p.srv.phase == ReadingTfo(true)
      then Refused(OP_FAILURE) else Unreported
    case DoConnect(o) => if o.ConnectFailed? then Refused(OP_FAILURE) else Unreported
    case ConnectResult(code, ok, bind) =>
      if code != OP_SUCCESS then Refused(code) else if ok then Bound(bind) else Unreported
    case _ => Unreported
  }

  function Next(c: Case, ev: ProxyWorlds.Event): Case {
    Case(ProxyWorlds.Next(c.p, ev),
         if Enabled(c.p, ev) && !Reported(c.p, ev).Unreported? then Reported(c.p, ev) else c.outcome)
  }

  function Run(c: Case, evs: seq<ProxyWorlds.Event>): Case
    decreases |evs|
  {
    if evs == [] then c else Run(Next(c, evs[0]), evs[1..])
  }

  /** The only requests for which a remote is contacted. */
  predicate WantsRemote(m: Message) { m.code == REQUEST_CONNECT && m.kind != Domain }

  /** The code of the one-shot reply that is due to a request, if one is. */
  function Due(m: Message, outcome: Outcome): Option<byte> {
    if m.kind == Domain then Some(OP_ADDR_NOT_SUPPORTED)
    else if m.code == REQUEST_NOOP then Some(OP_SUCCESS)
    else if m.code != REQUEST_CONNECT then Some(OP_CMD_NOT_SUPPORTED)
    else if outcome.Refused? then Some(outcome.code)
    else None
  }

  /** The state between the authentication and the relay. */
  predicate SettingUp(s: Server) {
    s.phase.Honoring? || s.phase.ReadingTfo? || s.phase.ConnectCall? || s.phase.AwaitingConnect?
  }

  /** The reply a request has, or does not have yet. */
  ghost predicate AnsweredRightly(s: Server, m: Message, outcome: Outcome) {
    && (s.reply.Simple? <==> Due(m, outcome).Some?)
    && (s.reply.Simple? ==> s.reply.reply.code == Due(m, outcome).value)
    && (s.reply.Connect? <==> WantsRemote(m) && outcome.Bound?)
    && (s.reply.Connect? ==> s.reply.reply == outcome.bind.(code := OP_SUCCESS))
    && (SettingUp(s) <==> WantsRemote(m) && outcome.Unreported?)
    && (s.remote ==> WantsRemote(m)) && (s.phase.Honoring? ==> !s.remote)
    && ((SettingUp(s) && !s.phase.Honoring?) || outcome.Bound? ==> s.remote)
  }

  /** The payload to wait for is what the request says, at most one segment, and the connect
      waits for it. */
  ghost predicate PayloadRightly(s: Server, m: Message) {
    && (s.remote ==> s.tfoPayload == if m.tfo < MSS then m.tfo else MSS)
    && (s.phase.ConnectCall? ==> |s.relay.buf.data| >= s.tfoPayload)
    && (s.phase.ReadingTfo? && s.relay.ctl.Armed? ==> |s.relay.buf.data| < s.tfoPayload)
  }

  /** Authentication has its say first: the request is acted on exactly if the reply is out and
      was a success; otherwise the connection is given up once it is out. */
  ghost predicate Gated(s: Server) {
    s.auth.Auth? && s.auth.buf.data == [] ==> if s.auth.reply.code == AUTH_SUCCESS then Past(s) else s.relay.ctl.Dead?
  }

  ghost predicate CaseInv(c: Case) {
    && WorldInv(c.p) && Gated(c.p.srv)
    && (if Past(c.p.srv) then
          && c.p.srv.request.Some?
          && AnsweredRightly(c.p.srv, c.p.srv.request.value, c.outcome) && PayloadRightly(c.p.srv, c.p.srv.request.value)
        else c.outcome.Unreported?)
  }

  // ----- each kind of step -----

  /** A one-shot reply is handed over because a step failed. */
  lemma RefusalAnswers(s: Server, code: byte, m: Message)
    requires SettingUp(s) && AnsweredRightly(s, m, Unreported)
    ensures AnsweredRightly(AnswerSimple(s, code), m, Refused(code))
  {
    hide Loaded;
  }

  lemma SocketAnswers(s: Server, ok: bool)
    requires s.phase.Honoring? && s.relay.ctl.Running? && s.request.Some? && AnsweredRightly(s, s.request.value, Unreported)
    ensures var q, m := SrvSocket(s, ok), s.request.value;
            AnsweredRightly(q, m, if ok then Unreported else Refused(OP_FAILURE)) && PayloadRightly(q, m)
  {
    hide Loaded, AnswerSimple;
    RefusalAnswers(s, OP_FAILURE, s.request.value);
    AnswerKeeps(s, OP_FAILURE);
  }

  lemma AnswerKeeps(s: Server, code: byte)
    ensures var q := AnswerSimple(s, code);
            q.phase.Answered? && q.remote == s.remote && q.tfoPayload == s.tfoPayload && q.request == s.request && q.auth == s.auth
  {
  }

  lemma TfoAnswers(s: Server, o: RecvOutcome)
    requires s.phase.ReadingTfo? && s.request.Some? && s.relay.ctl.Running?
    requires AnsweredRightly(s, s.request.value, Unreported) && PayloadRightly(s, s.request.value)
    ensures var q, m := SrvTfo(s, o), s.request.value;
            var refused := |s.relay.buf.data| < s.tfoPayload && (o.RecvFailed? || o.RecvAgain?) && s.phase == ReadingTfo(true);
            AnsweredRightly(q, m, if refused then Refused(OP_FAILURE) else Unreported) && PayloadRightly(q, m)
  {
    hide Loaded, AnswerSimple;
    RefusalAnswers(s, OP_FAILURE, s.request.value);
    AnswerKeeps(s, OP_FAILURE);
  }

  lemma ConnectAnswers(s: Server, o: ConnectOutcome)
    requires s.phase.ConnectCall? && s.request.Some?
    requires AnsweredRightly(s, s.request.value, Unreported) && PayloadRightly(s, s.request.value)
    ensures var q, m := SrvConnect(s, o), s.request.value;
            AnsweredRightly(q, m, if o.ConnectFailed? then Refused(OP_FAILURE) else Unreported) && PayloadRightly(q, m)
  {
    hide Loaded, AnswerSimple, TfoRest;
    RefusalAnswers(s, OP_FAILURE, s.request.value);
    AnswerKeeps(s, OP_FAILURE);
  }

  lemma ConnectedAnswers(s: Server, code: byte, ok: bool, bind: Message)
    requires s.phase.AwaitingConnect? && s.request.Some?
    requires AnsweredRightly(s, s.request.value, Unreported) && PayloadRightly(s, s.request.value)
    ensures var q, m := SrvConnected(s, code, ok, bind), s.request.value;
            && AnsweredRightly(q, m, if code != OP_SUCCESS then Refused(code) else if ok then Bound(bind) else Unreported)
            && PayloadRightly(q, m)
  {
    hide Loaded, AnswerSimple;
    RefusalAnswers(s, code, s.request.value);
    AnswerKeeps(s, code);
  }

  /** The switch on the command. */
  lemma DoneAnswers(s: Server)
    requires s.request.Some? && s.reply.NoReply? && !s.remote
    ensures var q, m := AuthDone(s), s.request.value;
            Past(q) && AnsweredRightly(q, m, Unreported) && PayloadRightly(q, m) && q.request == s.request
  {
    hide Loaded;
  }

  lemma AfterAuthAnswers(s: Server)
    requires s.auth.Auth? && s.request.Some? && s.reply.NoReply? && !s.remote && s.phase.AwaitingAuth?
    ensures var q := AfterAuthSend(s);
            && Gated(q)
            && (Past(q) ==> q.request == s.request && AnsweredRightly(q, s.request.value, Unreported) && PayloadRightly(q, s.request.value))
  {
    hide AuthDone;
    var idle := s.(auth := s.auth.(ctl := Idle));
    DoneAnswers(idle);
    AuthDoneSpares(idle);
  }

  lemma AuthAnswers(s: Server, w: SendOutcome)
    requires s.auth.Auth? && s.request.Some? && s.reply.NoReply? && !s.remote && s.phase.AwaitingAuth? && s.auth.buf.data != []
    ensures var q := AuthSend(s, w);
            && Gated(q)
            && (Past(q) ==> q.request == s.request && AnsweredRightly(q, s.request.value, Unreported) && PayloadRightly(q, s.request.value))
  {
    hide AfterAuthSend;
    var io := SockSend(s.auth.buf, w);
    if io.Bytes? {
      var sent := s.(auth := s.auth.(buf := io.buf));
      AfterAuthAnswers(if io.count == 0 then AuthKill(sent) else sent);
    }
  }

  /** What leaves request, reply and phase alone. */
  ghost predicate SameCase(s: Server, q: Server) {
    && q.phase == s.phase && q.request == s.request && q.remote == s.remote && q.tfoPayload == s.tfoPayload
    && q.reply.Simple? == s.reply.Simple? && q.reply.Connect? == s.reply.Connect?
    && (s.reply.Simple? || s.reply.Connect? ==> q.reply.reply == s.reply.reply)
    && (!s.phase.Relaying? ==> q.relay.buf == s.relay.buf && (q.relay.ctl.Armed? ==> s.relay.ctl.Armed?))
    && (s.relay.ctl.Dead? ==> q.relay.ctl.Dead?)
    && q.auth.Auth? == s.auth.Auth? && (s.auth.Auth? ==> q.auth.buf == s.auth.buf && q.auth.reply == s.auth.reply)
  }

  predicate Decides(ev: ProxyWorlds.Event) {
    ev.ReadReq? || ev.AuthWrite? || ev.MakeSocket? || ev.ReadTfo? || ev.DoConnect? || ev.ConnectResult?
  }

  lemma RestSame(p: World, ev: ProxyWorlds.Event)
    requires Enabled(p, ev) && !Decides(ev)
    ensures SameCase(p.srv, ProxyWorlds.Next(p, ev).srv)
  {
    hide RecvStep, SendStep, Gets, Puts, Answer, Pack;
  }

  lemma SameCaseKeeps(s: Server, q: Server, outcome: Outcome)
    requires SameCase(s, q) && s.request.Some?
    ensures AnsweredRightly(s, s.request.value, outcome) ==> AnsweredRightly(q, s.request.value, outcome)
    ensures PayloadRightly(s, s.request.value) ==> PayloadRightly(q, s.request.value)
  {
  }

  lemma RestKeeps(c: Case, ev: ProxyWorlds.Event)
    requires CaseInv(c) && Enabled(c.p, ev) && !Decides(ev)
    ensures CaseInv(Next(c, ev))
  {
    hide WorldInv, AnsweredRightly, PayloadRightly, ProxyWorlds.Next;
    ProxyWorlds.NextKeeps(c.p, ev);
    RestSame(c.p, ev);
    if c.p.srv.request.Some? {
      SameCaseKeeps(c.p.srv, ProxyWorlds.Next(c.p, ev).srv, c.outcome);
    }
  }

  /** What the control invariant says of a connection being set up. */
  lemma SetupFacts(p: World)
    requires WorldInv(p)
    ensures p.srv.auth.Auth? && Live(p.srv.auth.ctl) ==>
              p.srv.phase.AwaitingAuth? && p.srv.auth.buf.data != [] && p.srv.request.Some? && p.srv.reply.NoReply? && !p.srv.remote
    ensures p.srv.phase.AwaitingAuth? ==> !p.srv.remote
    ensures p.srv.phase.Honoring? && p.srv.relay.ctl.Running? ==> p.srv.auth.Auth? && p.srv.auth.buf.data == []
  {
  }

  lemma SetupKeeps(c: Case, ev: ProxyWorlds.Event)
    requires CaseInv(c) && Enabled(c.p, ev) && (ev.MakeSocket? || ev.ReadTfo? || ev.DoConnect? || ev.ConnectResult?)
    ensures CaseInv(Next(c, ev))
  {
    hide WorldInv, PayloadRightly, SrvSocket, SrvTfo, SrvConnect, SrvConnected;
    ProxyWorlds.NextKeeps(c.p, ev);
    var s := c.p.srv;
    assert Past(s) && SettingUp(s);
    SetupPast(c.p, ev);
    match ev
    case MakeSocket(ok) => SocketAnswers(s, ok);
    case ReadTfo(t) => TfoAnswers(s, Answer(c.p.b, t));
    case DoConnect(o) => ConnectAnswers(s, o);
    case ConnectResult(code, ok, bind) => ConnectedAnswers(s, code, ok, bind);
  }

  lemma SetupPast(p: World, ev: ProxyWorlds.Event)
    requires Enabled(p, ev) && (ev.MakeSocket? || ev.ReadTfo? || ev.DoConnect? || ev.ConnectResult?)
    ensures var q := ProxyWorlds.Next(p, ev).srv; Past(q) && q.request == p.srv.request && q.auth == p.srv.auth
  {
    hide Loaded, Pack, TfoRest;
  }

  lemma AuthWriteKeeps(c: Case, w: SendOutcome)
    requires CaseInv(c) && Enabled(c.p, AuthWrite(w))
    ensures CaseInv(Next(c, AuthWrite(w)))
  {
    hide WorldInv, PayloadRightly, AnsweredRightly, AuthSend;
    ProxyWorlds.NextKeeps(c.p, AuthWrite(w));
    SetupFacts(c.p);
    AuthAnswers(c.p.srv, w);
  }

  lemma ReadKeeps(c: Case, t: Take, a: Message)
    requires CaseInv(c) && Enabled(c.p, ReadReq(t, a))
    ensures CaseInv(Next(c, ReadReq(t, a)))
  {
    hide WorldInv, PayloadRightly, AnsweredRightly, SrvReadReq;
    ProxyWorlds.NextKeeps(c.p, ReadReq(t, a));
    ReadNotPast(c.p.srv, Answer(c.p.b, t), a);
    NoAuthYet(c.p);
  }

  lemma NoAuthYet(p: World)
    requires WorldInv(p) && p.srv.phase.ReadingReq?
    ensures p.srv.auth.NoAuth?
  {
  }

  lemma ReadNotPast(s: Server, o: RecvOutcome, a: Message)
    requires s.phase.ReadingReq?
    ensures var q := SrvReadReq(s, o, a); !Past(q) && (q.auth == s.auth || (q.auth.Auth? && q.auth.buf.data != []))
  {
    hide Parse, Loaded;
  }

  lemma NextAnswers(c: Case, ev: ProxyWorlds.Event)
    requires CaseInv(c)
    ensures CaseInv(Next(c, ev))
  {
    hide CaseInv, ProxyWorlds.Next, Reported;
    if !Enabled(c.p, ev) {
      Disabled(c.p, ev);
    } else if !Decides(ev) {
      RestKeeps(c, ev);
    } else {
      match ev
      case ReadReq(t, a) => ReadKeeps(c, t, a);
      case AuthWrite(w) => AuthWriteKeeps(c, w);
      case _ => SetupKeeps(c, ev);
    }
  }

  lemma Disabled(p: World, ev: ProxyWorlds.Event)
    requires !Enabled(p, ev)
    ensures ProxyWorlds.Next(p, ev) == p
  {
  }

  lemma {:induction false} RunAnswers(c: Case, evs: seq<ProxyWorlds.Event>)
    requires CaseInv(c)
    ensures CaseInv(Run(c, evs)) && Run(c, evs).p == ProxyWorlds.Run(c.p, evs)
    decreases |evs|
  {
    hide CaseInv, ProxyWorlds.Next, Reported;
    if evs != [] {
      NextAnswers(c, evs[0]);
      RunAnswers(Next(c, evs[0]), evs[1..]);
    }
  }

  lemma NewCase()
    ensures CaseInv(Case(NEW_WORLD, Unreported))
  {
    StartKeeps();
  }

  /** Every request is answered for what it is, over every run and from the bytes the client sent
      alone. Once a successful authentication reply is out, and never before, the request is acted
      on: a domain is refused as an address; otherwise a NOOP is answered SUCCESS at once, any
      command but CONNECT is refused as a command, and a CONNECT, and nothing else, has a remote
      socket made for it. A CONNECT is answered by a one-shot reply exactly if the socket, the
      first read of the payload or the connect failed, with the code of that failure, and by a
      SUCCESS with the bound address exactly if the connect succeeded. */
  lemma AnsweredForWhatItIs(evs: seq<ProxyWorlds.Event>)
    ensures var c := Run(Case(NEW_WORLD, Unreported), evs);
            var s := c.p.srv;
            && c.p == ProxyWorlds.Run(NEW_WORLD, evs)
            && (Past(s) ==>
                  && Parse(c.p.b.sent).Parsed?
                  && var m := Parse(c.p.b.sent).message;
                     && (s.reply.Simple? <==> Due(m, c.outcome).Some?)
                     && (s.reply.Simple? ==> s.reply.reply.code == Due(m, c.outcome).value)
                     && (s.reply.Connect? <==> WantsRemote(m) && c.outcome.Bound?)
                     && (s.reply.Connect? ==> s.reply.reply == c.outcome.bind.(code := OP_SUCCESS))
                     && (s.remote || s.phase.Honoring? ==> WantsRemote(m))
                     && (s.remote ==> s.tfoPayload == if m.tfo < 1460 then m.tfo else 1460))
            && (!Past(s) ==> !s.remote && !s.reply.Simple? && !s.reply.Connect?)
            && (s.auth.Auth? && s.auth.buf.data == [] ==>
                  (Past(s) <==> s.auth.reply.code == AUTH_SUCCESS) && (!Past(s) ==> s.relay.ctl.Dead?))
            && (Past(s) ==> s.auth.Auth? && s.auth.buf.data == [] && s.auth.reply.code == AUTH_SUCCESS)
  {
    hide Run, ProxyWorlds.Run;
    NewCase();
    RunAnswers(Case(NEW_WORLD, Unreported), evs);
    var c := Run(Case(NEW_WORLD, Unreported), evs);
    PastFacts(c.p);
    if Past(c.p.srv) {
      ProxyStripsRequest(evs);
    }
  }

  lemma PastFacts(p: World)
    requires WorldInv(p)
    ensures !Past(p.srv) ==> !p.srv.remote && !p.srv.reply.Simple? && !p.srv.reply.Connect?
    ensures Past(p.srv) ==> p.srv.auth.Auth? && p.srv.auth.buf.data == [] && p.srv.auth.reply.code == AUTH_SUCCESS
  {
  }
}
