/** Many connections of one proxy over one session table: what authentication has to do with
    what reaches a remote. Joins proxy/proxyupstreamer.cc and proxy/authserver.cc, which hold a
    connection back until its reply is out, with proxy/authutil.cc, which gives the reply. */
module AuthGate {
  import opened Wrappers
  import opened Codec
  import opened Buffers
  import opened Logs
  import opened Relays
  import opened ProxifierReactors
  import opened ProxyReactors
  import opened ProxyWorlds
  import ServerAuth

  type Cid = nat

  /** `entry`: which entry of the authentication log a connection's request has become. */
  datatype Gate = Gate(worlds: map<Cid, World>, auth: ServerAuth.History, entry: map<Cid, nat>)

  const NEW_GATE := Gate(map[], ServerAuth.NO_HISTORY, map[])

  /** `Read`: a read in S_READING_REQ; if it completes the request, `authenticate` is called and
      `reply` is what its answer looks like on the wire. */
  datatype Event =
    | Open(cid: Cid) | Other(cid: Cid, ev: ProxyWorlds.Event)
    | Read(cid: Cid, t: Take, reply: Message, env: ServerAuth.Env)

  /** What the options of a request ask for is decided by the message library; `asked` is any
      such reading. */
  type Reading = Message -> ServerAuth.Request

  function ReadResult(p: World, ev: Event): World
    requires ev.Read?
  {
    ProxyWorlds.Next(p, ReadReq(ev.t, ev.reply))
  }

  predicate Completes(p: World, ev: Event)
    requires ev.Read?
  {
    p.srv.request.None? && ReadResult(p, ev).srv.request.Some?
  }

  /** The reply sent says what `authenticate` decided. */
  predicate Faithful(g: Gate, asked: Reading, checker: Option<ServerAuth.Credentials>, ev: Event)
    requires ev.Read? && ev.cid in g.worlds
  {
    Completes(g.worlds[ev.cid], ev) ==>
      && ev.env.spawned !in g.auth.table
      && var q := asked(ReadResult(g.worlds[ev.cid], ev).srv.request.value);
         (ev.reply.code == AUTH_SUCCESS <==> ServerAuth.Authenticated(g.auth.table, checker, q, ev.env).1.success)
  }

  predicate Enabled(g: Gate, asked: Reading, checker: Option<ServerAuth.Credentials>, ev: Event) {
    match ev
    case Open(cid) => cid !in g.worlds
    case Other(cid, e) => cid in g.worlds && !e.ReadReq?
    case Read(cid, _, _, _) => cid in g.worlds && Faithful(g, asked, checker, ev)
  }

  function Next(g: Gate, asked: Reading, checker: Option<ServerAuth.Credentials>, ev: Event): Gate {
    if !Enabled(g, asked, checker, ev) then g else
    match ev
    case Open(cid) => g.(worlds := g.worlds[cid := NEW_WORLD])
    case Other(cid, e) => g.(worlds := g.worlds[cid := ProxyWorlds.Next(g.worlds[cid], e)])
    case Read(cid, _, _, env) =>
      var p := ReadResult(g.worlds[cid], ev);
      var h := g.(worlds := g.worlds[cid := p]);
      if Completes(g.worlds[cid], ev)
      then h.(auth := ServerAuth.Serve(g.auth, checker, asked(p.srv.request.value), env), entry := g.entry[cid := |g.auth.log|])
      else h
  }

  function Run(g: Gate, asked: Reading, checker: Option<ServerAuth.Credentials>, evs: seq<Event>): Gate
    decreases |evs|
  {
    if evs == [] then g else Run(Next(g, asked, checker, evs[0]), asked, checker, evs[1..])
  }

  /** A request is taken once, by a read, together with the reply to it. */
  lemma NextRequest(p: World, ev: ProxyWorlds.Event)
    requires Shape(p.srv)
    ensures var q := ProxyWorlds.Next(p, ev);
            || (q.srv.request == p.srv.request)
            || (ev.ReadReq? && p.srv.request.None? && q.srv.request.Some? && q.srv.auth.Auth? && q.srv.auth.reply == ev.reply)
  {
    if ProxyWorlds.Enabled(p, ev) && ev.AuthWrite? {
      AuthRequest(p.srv, ev.w);
    }
    hide RecvStep, SendStep, Destroyed, Loaded, Parse, Settle, SockSend, AuthSend;
  }

  lemma AuthRequest(s: Server, w: SendOutcome)
    requires s.auth.Auth?
    ensures AuthSend(s, w).request == s.request
  {
    hide Loaded, SockSend, Settle;
  }

  /** Entry `i` is the authentication of this connection's request. */
  ghost predicate EntryOf(g: Gate, asked: Reading, cid: Cid, i: nat) {
    && cid in g.worlds && i < |g.auth.log| && g.worlds[cid].srv.request.Some? && g.worlds[cid].srv.auth.Auth?
    && g.auth.log[i].q == asked(g.worlds[cid].srv.request.value)
    && (g.worlds[cid].srv.auth.reply.code == AUTH_SUCCESS <==> g.auth.log[i].reply.success)
  }

  ghost predicate GateInv(g: Gate, asked: Reading, checker: Option<ServerAuth.Credentials>) {
    && (forall cid :: cid in g.worlds ==> WorldInv(g.worlds[cid]))
    && (forall cid :: cid in g.worlds && g.worlds[cid].srv.request.Some? ==> cid in g.entry && EntryOf(g, asked, cid, g.entry[cid]))
    && AuthInv(g.auth, checker)
  }

  ghost predicate AuthInv(h: ServerAuth.History, checker: Option<ServerAuth.Credentials>) {
    ServerAuth.Traced(h, checker) && ServerAuth.SpentRecorded(h) && ServerAuth.SpentOnce(h.log)
  }

  lemma AuthKeeps(h: ServerAuth.History, checker: Option<ServerAuth.Credentials>, q: ServerAuth.Request, env: ServerAuth.Env)
    requires AuthInv(h, checker)
    ensures AuthInv(ServerAuth.Serve(h, checker, q, env), checker)
  {
    ServerAuth.ServeKeeps(h, checker, q, env);
  }

  lemma WorldStep(p: World, e: ProxyWorlds.Event)
    requires WorldInv(p)
    ensures var q := ProxyWorlds.Next(p, e);
            && WorldInv(q)
            && (p.srv.request.Some? && p.srv.auth.Auth? ==>
                  q.srv.request == p.srv.request && q.srv.auth.Auth? && q.srv.auth.reply == p.srv.auth.reply)
            && (p.srv.request.None? && q.srv.request.Some? ==> e.ReadReq? && q.srv.auth.Auth? && q.srv.auth.reply == e.reply)
  {
    ProxyWorlds.NextKeeps(p, e);
    NextStable(p, e);
    NextRequest(p, e);
    hide ProxyWorlds.Next;
  }

  /** One world steps, and its request and its reply are what they were. */
  lemma StepKeeps(g: Gate, asked: Reading, checker: Option<ServerAuth.Credentials>, cid: Cid, e: ProxyWorlds.Event)
    requires GateInv(g, asked, checker) && cid in g.worlds
    requires g.worlds[cid].srv.request.None? ==> ProxyWorlds.Next(g.worlds[cid], e).srv.request.None?
    ensures GateInv(g.(worlds := g.worlds[cid := ProxyWorlds.Next(g.worlds[cid], e)]), asked, checker)
  {
    hide WorldInv, ProxyWorlds.Next, AuthInv;
    var h := g.(worlds := g.worlds[cid := ProxyWorlds.Next(g.worlds[cid], e)]);
    WorldStep(g.worlds[cid], e);
    forall x | x in h.worlds && h.worlds[x].srv.request.Some?
      ensures x in h.entry && EntryOf(h, asked, x, h.entry[x])
    {
      assert EntryOf(g, asked, x, g.entry[x]);
    }
  }

  lemma ReadKeeps(g: Gate, asked: Reading, checker: Option<ServerAuth.Credentials>, ev: Event)
    requires GateInv(g, asked, checker) && ev.Read? && Enabled(g, asked, checker, ev) && Completes(g.worlds[ev.cid], ev)
    ensures GateInv(Next(g, asked, checker, ev), asked, checker)
  {
    hide WorldInv, ProxyWorlds.Next, AuthInv, ServerAuth.Authenticated;
    var h := Next(g, asked, checker, ev);
    var cid := ev.cid;
    var p := ReadResult(g.worlds[cid], ev);
    WorldStep(g.worlds[cid], ReadReq(ev.t, ev.reply));
    AuthKeeps(g.auth, checker, asked(p.srv.request.value), ev.env);
    forall x | x in h.worlds && h.worlds[x].srv.request.Some?
      ensures x in h.entry && EntryOf(h, asked, x, h.entry[x])
    {
      if x != cid {
        assert EntryOf(g, asked, x, g.entry[x]);
      }
    }
  }

  lemma NextKeeps(g: Gate, asked: Reading, checker: Option<ServerAuth.Credentials>, ev: Event)
    requires GateInv(g, asked, checker)
    ensures GateInv(Next(g, asked, checker, ev), asked, checker)
  {
    hide ProxyWorlds.Next, WorldInv, AuthInv, EntryOf;
    if Enabled(g, asked, checker, ev) {
      match ev
      case Open(cid) =>
        StartKeeps();
        OpenKeeps(g, asked, checker, cid);
      case Other(cid, e) =>
        WorldStep(g.worlds[cid], e);
        StepKeeps(g, asked, checker, cid, e);
      case Read(cid, t, reply, _) =>
        if Completes(g.worlds[cid], ev) {
          ReadKeeps(g, asked, checker, ev);
        } else {
          StepKeeps(g, asked, checker, cid, ReadReq(t, reply));
        }
    }
  }

  lemma OpenKeeps(g: Gate, asked: Reading, checker: Option<ServerAuth.Credentials>, cid: Cid)
    requires GateInv(g, asked, checker) && cid !in g.worlds && WorldInv(NEW_WORLD)
    ensures GateInv(g.(worlds := g.worlds[cid := NEW_WORLD]), asked, checker)
  {
    var h := g.(worlds := g.worlds[cid := NEW_WORLD]);
    hide WorldInv, AuthInv;
    forall x | x in h.worlds && h.worlds[x].srv.request.Some?
      ensures x in h.entry && EntryOf(h, asked, x, h.entry[x])
    {
      assert EntryOf(g, asked, x, g.entry[x]);
    }
  }

  lemma {:induction false} RunKeeps(g: Gate, asked: Reading, checker: Option<ServerAuth.Credentials>, evs: seq<Event>)
    requires GateInv(g, asked, checker)
    ensures GateInv(Run(g, asked, checker, evs), asked, checker)
    decreases |evs|
  {
    hide GateInv, Next;
    if evs != [] {
      NextKeeps(g, asked, checker, evs[0]);
      RunKeeps(Next(g, asked, checker, evs[0]), asked, checker, evs[1..]);
    }
  }

  lemma NewGateInv(asked: Reading, checker: Option<ServerAuth.Credentials>)
    ensures GateInv(NEW_GATE, asked, checker)
  {
  }

  lemma RemoteMeansSuccess(p: World)
    requires WorldInv(p) && (p.srv.remote || p.c.sent != [])
    ensures p.srv.request.Some? && p.srv.auth.Auth? && p.srv.auth.reply.code == AUTH_SUCCESS
  {
  }

  /** Entry `i` is a success whose own credentials passed, or whose session was created earlier
      by a request whose credentials passed. */
  ghost predicate Entitled(log: seq<ServerAuth.Entry>, credentials: ServerAuth.Credentials, i: nat) {
    && i < |log| && log[i].reply.success
    && (|| (log[i].q.sessionId.None? && log[i].q.credentials == credentials)
        || (exists j: nat :: j < i && log[i].q.sessionId.Some? && log[j].reply.newId == log[i].q.sessionId
                             && log[j].q.credentials == credentials))
  }

  lemma SuccessIsEntitled(h: ServerAuth.History, credentials: ServerAuth.Credentials, i: nat)
    requires AuthInv(h, Some(credentials)) && i < |h.log| && h.log[i].reply.success
    ensures Entitled(h.log, credentials, i)
  {
    assert ServerAuth.Justified(Some(credentials), h.log, i);
  }

  /** No byte reaches a remote, and no remote socket is even made, except for a request that was
      authenticated with the right password, or with a session that was given out for one. */
  lemma NoByteUnlessAuthenticated(asked: Reading, credentials: ServerAuth.Credentials, evs: seq<Event>, cid: Cid)
    ensures var g := Run(NEW_GATE, asked, Some(credentials), evs);
            cid in g.worlds && (g.worlds[cid].srv.remote || g.worlds[cid].c.sent != []) ==>
              && g.worlds[cid].srv.request.Some? && cid in g.entry
              && Entitled(g.auth.log, credentials, g.entry[cid])
              && g.auth.log[g.entry[cid]].q == asked(g.worlds[cid].srv.request.value)
  {
    NewGateInv(asked, Some(credentials));
    RunKeeps(NEW_GATE, asked, Some(credentials), evs);
    hide Run;
    var g := Run(NEW_GATE, asked, Some(credentials), evs);
    if cid in g.worlds && (g.worlds[cid].srv.remote || g.worlds[cid].c.sent != []) {
      hide WorldInv, AuthInv, Entitled;
      RemoteMeansSuccess(g.worlds[cid]);
      SuccessIsEntitled(g.auth, credentials, g.entry[cid]);
    }
  }
}
