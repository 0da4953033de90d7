/** The proxifier's session protocol: who may ask the proxy for a session, and how it is
    installed and dropped. proxifier/proxifier.cc, proxifier/proxifier.hh,
    proxifier/sessionsupplicant.cc, proxifier/sessionsupplicationagent.cc, and the parts of
    proxifier/proxifierupstreamer.cc and proxifier/proxifierdownstreamer.cc that take part. */
module ClientSessions {
  import opened Wrappers
  import opened Codec
  import opened ServerAuth

  type Cid = nat

  /** A ClientSession object: `ref` is its identity, which is what `killSession` compares. */
  datatype Session = Session(ref: nat, id: seq<byte>)

  /** The proxifier's shared state; `misuse`: the lock was released while free. */
  datatype Core = Core(session: Option<Session>, locked: bool, misuse: bool)

  function Unlock(c: Core): Core { c.(locked := false, misuse := c.misuse || !c.locked) }

  /** `handleNewConnection`: does this connection get to ask for a session? */
  function Admit(c: Core): (Core, bool) {
    if c.locked then (c, false)
    else if c.session.None? then (c.(locked := true), true)
    else (Unlock(c.(locked := true)), false)
  }

  function Kill(c: Core, s: Session): Core {
    if c.session.Some? && c.session.value.ref == s.ref then c.(session := None) else c
  }

  /** `SessionSupplicant::process` of a reply; `ref` names the session object it would make. */
  function Supplicate(c: Core, ref: nat, reply: Reply): Core {
    Unlock(if reply.newId.Some? then c.(session := Some(Session(ref, reply.newId.value))) else c)
  }

  /** A connection's share in a supplicant, which lives as long as its reactors do. */
  datatype Supplicant = NoSupplicant | Asking | Finished

  /** `agent`: the start-up supplication, a NOOP request without a session of its own. */
  datatype Conn = Conn(agent: bool, session: Option<Session>, supplicant: Supplicant, request: Option<Request>, answered: bool)

  datatype Client = Client(core: Core, started: bool, conns: map<Cid, Conn>, refs: nat, kills: nat)

  const NEW_CLIENT := Client(Core(None, false, false), false, map[], 0, 0)

  const WINDOW := 200

  /** What a supplicant adds to a request. */
  function Asked(r: Request): Request { r.(newSession := true, windowSize := WINDOW) }

  function Sent(credentials: Credentials, wanted: bool): Credentials {
    if |credentials.user| > 0 && wanted then credentials else Credentials("", "")
  }

  /** The request a connection sends: its session if it has one, credentials if there are any
      and the session does not make them superfluous, and what the supplicant adds. */
  function RequestOf(c: Conn, credentials: Credentials, untrusted: bool, token: Option<Token>): Request {
    var plain := Request(if c.session.Some? then Some(c.session.value.id) else None, false,
                         Sent(credentials, c.session.Some? ==> untrusted), 0, if c.session.Some? then token else None);
    if c.supplicant.NoSupplicant? then plain else Asked(plain)
  }

  datatype Event =
    | Begin(cid: Cid) | Connect(cid: Cid)
    | Send(cid: Cid, credentials: Credentials, untrusted: bool, token: Option<Token>)
    | Answer(cid: Cid, reply: Reply) | Drop(cid: Cid)

  predicate Enabled(c: Client, ev: Event) {
    match ev
    case Begin(cid) => !c.started && cid !in c.conns
    case Connect(cid) => c.started && cid !in c.conns
    case Send(cid, _, _, _) => cid in c.conns && c.conns[cid].request.None?
    case Answer(cid, _) => cid in c.conns && c.conns[cid].request.Some? && !c.conns[cid].answered
    case Drop(cid) => cid in c.conns
  }

  /** What a reply does. The agent hands any reply to its supplicant; a downstreamer first
      checks on its session, and goes no further unless the reply is a success. */
  function Answered(c: Client, cid: Cid, reply: Reply): Client
    requires cid in c.conns
  {
    var conn := c.conns[cid];
    var rejects := !conn.agent && conn.session.Some? && Rejects(reply);
    var core := if rejects then Kill(c.core, conn.session.value) else c.core;
    var asks := conn.supplicant.Asking? && (conn.agent || reply.success);
    c.(core := if asks then Supplicate(core, c.refs, reply) else core,
       refs := c.refs + 1, kills := c.kills + (if rejects then 1 else 0),
       conns := c.conns[cid := conn.(answered := true, supplicant := if asks then Finished else conn.supplicant)])
  }

  function Next(c: Client, ev: Event): Client {
    if !Enabled(c, ev) then c else
    match ev
    case Begin(cid) =>
      c.(started := true, core := c.core.(locked := true), conns := c.conns[cid := Conn(true, None, Asking, None, false)])
    case Connect(cid) =>
      var (core, asks) := Admit(c.core);
      c.(core := core,
         conns := c.conns[cid := Conn(false, core.session, if asks then Asking else NoSupplicant, None, false)])
    case Send(cid, credentials, untrusted, token) =>
      var conn := c.conns[cid];
      c.(conns := c.conns[cid := conn.(request := Some(RequestOf(conn, credentials, untrusted, token)))])
    case Answer(cid, reply) => Answered(c, cid, reply)
    case Drop(cid) =>
      c.(core := if c.conns[cid].supplicant.Asking? then Unlock(c.core) else c.core, conns := c.conns - {cid})
  }

  predicate Asks(c: Client, cid: Cid) { cid in c.conns && c.conns[cid].supplicant.Asking? }

  /** The lock is held exactly while one living supplicant is not done; meanwhile there is no
      session, so nothing a supplicant installs ever replaces one. */
  ghost predicate LockInv(c: Client) {
    && (c.core.locked <==> exists cid :: Asks(c, cid))
    && (forall x, y :: Asks(c, x) && Asks(c, y) ==> x == y)
    && !c.core.misuse
    && (c.core.locked ==> c.core.session.None?)
    && (!c.started ==> c.conns == map[] && !c.core.locked && c.core.session.None?)
  }

  /** No connection has both a session and a supplicant, and no request speaks of both. */
  ghost predicate RequestInv(c: Client) {
    forall cid :: cid in c.conns ==>
      && (c.conns[cid].session.Some? ==> c.conns[cid].supplicant.NoSupplicant?)
      && (c.conns[cid].request.Some? ==>
            && !(c.conns[cid].request.value.sessionId.Some? && c.conns[cid].request.value.newSession)
            && c.conns[cid].request.value.sessionId == (if c.conns[cid].session.Some? then Some(c.conns[cid].session.value.id) else None))
  }

  /** Session objects are distinct from any that will be made. */
  ghost predicate RefInv(c: Client) {
    && (c.core.session.Some? ==> c.core.session.value.ref < c.refs)
    && (forall cid :: cid in c.conns && c.conns[cid].session.Some? ==> c.conns[cid].session.value.ref < c.refs)
  }

  ghost predicate ClientInv(c: Client) { LockInv(c) && RequestInv(c) && RefInv(c) }

  lemma LockAfter(c: Client, q: Client, cid: Cid)
    requires LockInv(c) && !q.core.misuse && (q.started || q.conns == map[]) && (c.started ==> q.started)
    requires forall x :: x != cid ==> (Asks(q, x) <==> Asks(c, x))
    requires Asks(c, cid) || !c.core.locked || !Asks(q, cid)
    requires q.core.locked <==> (Asks(q, cid) || (c.core.locked && !Asks(c, cid)))
    requires q.core.locked ==> q.core.session.None?
    requires !q.started ==> !q.core.locked && q.core.session.None?
    ensures LockInv(q)
  {
    if q.core.locked {
      if Asks(q, cid) {
      } else {
        var x :| Asks(c, x);
        assert Asks(q, x);
      }
    }
    forall x, y | Asks(q, x) && Asks(q, y)
      ensures x == y
    {
    }
  }

  lemma NextLock(c: Client, ev: Event)
    requires LockInv(c) && Enabled(c, ev)
    ensures LockInv(Next(c, ev))
  {
    var q := Next(c, ev);
    var cid := ev.cid;
    assert Asks(c, cid) ==> c.core.locked;
    LockAfter(c, q, cid);
  }

  lemma NextKeeps(c: Client, ev: Event)
    requires ClientInv(c)
    ensures ClientInv(Next(c, ev))
  {
    if Enabled(c, ev) {
      NextLock(c, ev);
      assert ev.Connect? && Asks(Next(c, ev), ev.cid) ==> c.core.session.None?;
    }
  }

  function Run(c: Client, evs: seq<Event>): Client
    decreases |evs|
  {
    if evs == [] then c else Run(Next(c, evs[0]), evs[1..])
  }

  lemma {:induction false} RunKeeps(c: Client, evs: seq<Event>)
    requires ClientInv(c)
    ensures ClientInv(Run(c, evs))
    decreases |evs|
  {
    if evs == [] {
    } else {
      NextKeeps(c, evs[0]);
      RunKeeps(Next(c, evs[0]), evs[1..]);
    }
  }

  /** Lock discipline, over every interleaving of start-up, new connections, requests, replies
      and destruction: the lock is held between steps exactly when a living supplicant is not
      done, there is never more than one such, and the lock is never released while free. */
  lemma SupplicationLockDiscipline(evs: seq<Event>)
    ensures var c := Run(NEW_CLIENT, evs);
            && (c.core.locked <==> exists cid :: Asks(c, cid))
            && (forall x, y :: Asks(c, x) && Asks(c, y) ==> x == y)
            && !c.core.misuse
  {
    RunKeeps(NEW_CLIENT, evs);
  }

  /** No request both presents a session and asks for a new one. */
  lemma NoRequestSpeaksOfTwoSessions(evs: seq<Event>, cid: Cid)
    ensures var c := Run(NEW_CLIENT, evs);
            cid in c.conns && c.conns[cid].request.Some? ==>
              !(c.conns[cid].request.value.sessionId.Some? && c.conns[cid].request.value.newSession)
  {
    RunKeeps(NEW_CLIENT, evs);
  }

  /** A session, once installed, is never replaced, and nothing but a rejecting reply on a
      connection that presented this very session object ever clears it: a late reply about an
      older session leaves it alone. */
  lemma SessionClearedOnlyByItsOwn(evs: seq<Event>, ev: Event)
    ensures var c := Run(NEW_CLIENT, evs);
            var q := Next(c, ev);
            c.core.session.Some? && q.core.session != c.core.session ==>
              && q.core.session.None? && ev.Answer? && ev.cid in c.conns
              && c.conns[ev.cid].session.Some? && c.conns[ev.cid].session.value.ref == c.core.session.value.ref
              && Rejects(ev.reply)
  {
    RunKeeps(NEW_CLIENT, evs);
    var c := Run(NEW_CLIENT, evs);
    if Enabled(c, ev) && ev.Answer? {
      assert Asks(c, ev.cid) ==> c.core.locked;
    }
  }

  predicate Rejects(reply: Reply) { reply.sessionRejected || !reply.sessionOk }

  /** A rejection does clear the session: over every run, an answer to a connection that presented
      the current session leaves none exactly if it rejects the session or does not confirm it,
      and otherwise leaves it as it was; in the first case the very next connection is given a
      supplicant, so a new session is asked for. */
  lemma RejectionClears(evs: seq<Event>, cid: Cid, reply: Reply, next: Cid)
    requires var c := Run(NEW_CLIENT, evs);
             && Enabled(c, Answer(cid, reply)) && !c.conns[cid].agent && next !in c.conns
             && c.core.session.Some? && c.conns[cid].session.Some?
             && c.conns[cid].session.value.ref == c.core.session.value.ref
    ensures var c := Run(NEW_CLIENT, evs);
            var q := Next(c, Answer(cid, reply));
            && (q.core.session.None? <==> Rejects(reply))
            && (!Rejects(reply) ==> q.core.session == c.core.session)
            && (Rejects(reply) ==> !q.core.locked && Asks(Next(q, Connect(next)), next))
  {
    RunKeeps(NEW_CLIENT, evs);
    var c := Run(NEW_CLIENT, evs);
    var q := Next(c, Answer(cid, reply));
    NextKeeps(c, Answer(cid, reply));
    assert c.conns[cid].supplicant.NoSupplicant?;
    assert c.started && q.started;
  }

  /** Who is admitted: over every run, a new connection is given a supplicant exactly if there is
      no session and no living supplicant that is not done; it captures the session there is. */
  lemma AdmittedIff(evs: seq<Event>, cid: Cid)
    requires Enabled(Run(NEW_CLIENT, evs), Connect(cid))
    ensures var c := Run(NEW_CLIENT, evs);
            var q := Next(c, Connect(cid));
            && (Asks(q, cid) <==> c.core.session.None? && !exists x :: Asks(c, x))
            && cid in q.conns && q.conns[cid].session == c.core.session && q.core.session == c.core.session
            && !q.conns[cid].agent && q.conns[cid].request.None?
  {
    RunKeeps(NEW_CLIENT, evs);
  }

  /** What a connection sends, over every run: the session it captured and no other, a token only
      with a session, a request for a session with a window exactly if it has a supplicant, and
      the credentials, if there are any, unless a trusted session makes them superfluous. */
  lemma RequestSays(evs: seq<Event>, cid: Cid, credentials: Credentials, untrusted: bool, token: Option<Token>)
    requires Enabled(Run(NEW_CLIENT, evs), Send(cid, credentials, untrusted, token))
    ensures var c := Run(NEW_CLIENT, evs);
            var q := Next(c, Send(cid, credentials, untrusted, token));
            && cid in q.conns && q.conns[cid].request.Some?
            && var r, conn := q.conns[cid].request.value, c.conns[cid];
               && (r.sessionId.Some? <==> conn.session.Some?)
               && (r.sessionId.Some? ==> r.sessionId.value == conn.session.value.id && r.token == token && !r.newSession)
               && (r.sessionId.None? ==> r.token.None?)
               && (credentials.user != "" && (r.sessionId.None? || untrusted) ==> r.credentials == credentials)
               && (credentials.user == "" || (r.sessionId.Some? && !untrusted) ==> r.credentials == Credentials("", ""))
               && (r.newSession <==> !conn.supplicant.NoSupplicant?)
               && r.windowSize == (if r.newSession then 200 else 0)
  {
    RunKeeps(NEW_CLIENT, evs);
  }

  /** An asking connection's reply: over every run, the agent's reply or a successful one installs
      the session it brings, if it brings one, and frees the lock; any other leaves both alone. */
  lemma AnswerInstalls(evs: seq<Event>, cid: Cid, reply: Reply)
    requires var c := Run(NEW_CLIENT, evs); Enabled(c, Answer(cid, reply)) && Asks(c, cid)
    ensures var c := Run(NEW_CLIENT, evs);
            var q := Next(c, Answer(cid, reply));
            var heard := c.conns[cid].agent || reply.success;
            && (q.core.session.Some? <==> heard && reply.newId.Some?)
            && (q.core.session.Some? ==> q.core.session.value.id == reply.newId.value)
            && (q.core.locked <==> !heard) && (Asks(q, cid) <==> !heard)
  {
    RunKeeps(NEW_CLIENT, evs);
    var c := Run(NEW_CLIENT, evs);
    assert c.core.locked;
  }

  // ----- one proxifier and one proxy -----

  /** `served`: replies on their way back. The proxy also serves any other clients. */
  datatype Joint = Joint(c: Client, table: Table, served: map<Cid, Reply>)

  const NEW_JOINT := Joint(NEW_CLIENT, map[], map[])

  datatype Move =
    | Local(ev: Event) | Serve(cid: Cid, env: Env) | Deliver(cid: Cid) | Other(q: Request, env: Env)

  predicate CanMove(j: Joint, m: Move) {
    match m
    case Local(ev) => !ev.Answer? && (ev.Begin? || ev.Connect? ==> ev.cid !in j.served)
    case Serve(cid, env) =>
      cid in j.c.conns && j.c.conns[cid].request.Some? && cid !in j.served && env.spawned !in j.table
    case Deliver(cid) => cid in j.served && cid in j.c.conns
    case Other(_, env) => env.spawned !in j.table
  }

  function Do(j: Joint, checker: Option<Credentials>, m: Move): Joint {
    if !CanMove(j, m) then j else
    match m
    case Local(ev) => j.(c := Next(j.c, ev))
    case Serve(cid, env) =>
      var r := Authenticated(j.table, checker, j.c.conns[cid].request.value, env);
      j.(table := r.0, served := j.served[cid := r.1])
    case Deliver(cid) => j.(c := Next(j.c, Answer(cid, j.served[cid])))
    case Other(q, env) => j.(table := Authenticated(j.table, checker, q, env).0)
  }

  /** A session the proxy has, under the identifier its bytes stand for. */
  predicate Known(t: Table, id: seq<byte>) { |id| == ID_SIZE && Decode(id) in t }

  ghost predicate Coherent(j: Joint) {
    && (j.c.core.session.Some? ==> Known(j.table, j.c.core.session.value.id))
    && (forall cid :: cid in j.c.conns && j.c.conns[cid].session.Some? ==> Known(j.table, j.c.conns[cid].session.value.id))
    && (forall cid :: cid in j.served && j.served[cid].newId.Some? ==> Known(j.table, j.served[cid].newId.value))
    && (forall cid :: cid in j.served && cid in j.c.conns && j.c.conns[cid].session.Some? ==>
          j.served[cid].sessionOk && !j.served[cid].sessionRejected)
    && (forall cid :: cid in j.served && cid in j.c.conns ==> j.c.conns[cid].request.Some?)
    && j.c.kills == 0
  }

  /** Growing the table keeps what is known. */
  lemma KnownGrows(j: Joint, q: Joint)
    requires Coherent(j) && Grows(j.table, q.table) && q.c == j.c && q.served == j.served
    ensures Coherent(q)
  {
  }

  /** A reply is on its way: what it promises is so. */
  lemma ServedCoherent(j: Joint, cid: Cid, reply: Reply)
    requires Coherent(j) && cid !in j.served && cid in j.c.conns && j.c.conns[cid].request.Some?
    requires reply.newId.Some? ==> Known(j.table, reply.newId.value)
    requires j.c.conns[cid].session.Some? ==> reply.sessionOk && !reply.sessionRejected
    ensures Coherent(j.(served := j.served[cid := reply]))
  {
    hide Known;
  }

  lemma ServeKeepsCoherent(j: Joint, checker: Option<Credentials>, cid: Cid, env: Env)
    requires ClientInv(j.c) && Coherent(j) && CanMove(j, Serve(cid, env))
    ensures Coherent(Do(j, checker, Serve(cid, env)))
  {
    hide Authenticated, LockInv, RefInv;
    var r := j.c.conns[cid].request.value;
    var (u, reply) := Authenticated(j.table, checker, r, env);
    AuthenticateFacts(j.table, checker, r, env);
    IdRoundTrip(env.spawned, []);
    var mid := j.(table := u);
    KnownGrows(j, mid);
    if j.c.conns[cid].session.Some? {
      assert Known(j.table, r.sessionId.value);
      PresentedIsOk(j.table, checker, r, env);
    }
    ServedCoherent(mid, cid, reply);
  }

  /** A request that presents a session the proxy has is answered with a session OK. */
  lemma PresentedIsOk(t: Table, checker: Option<Credentials>, r: Request, env: Env)
    requires r.sessionId.Some? && Known(t, r.sessionId.value)
    ensures var reply := Authenticated(t, checker, r, env).1; reply.sessionOk && !reply.sessionRejected
  {
  }

  lemma LocalKeepsCoherent(j: Joint, checker: Option<Credentials>, ev: Event)
    requires ClientInv(j.c) && Coherent(j) && CanMove(j, Local(ev))
    ensures Coherent(Do(j, checker, Local(ev)))
  {
  }

  lemma DeliverKeepsCoherent(j: Joint, checker: Option<Credentials>, cid: Cid)
    requires ClientInv(j.c) && Coherent(j) && CanMove(j, Deliver(cid))
    ensures Coherent(Do(j, checker, Deliver(cid)))
    ensures j.c.core.session.Some? ==> Do(j, checker, Deliver(cid)).c.core.session == j.c.core.session
  {
    assert Asks(j.c, cid) ==> j.c.core.locked;
  }

  lemma DoKeeps(j: Joint, checker: Option<Credentials>, m: Move)
    requires ClientInv(j.c) && Coherent(j)
    ensures var q := Do(j, checker, m);
            ClientInv(q.c) && Coherent(q) && (j.c.core.session.Some? ==> q.c.core.session == j.c.core.session)
  {
    if CanMove(j, m) {
      match m
      case Local(ev) => NextKeeps(j.c, ev); LocalKeepsCoherent(j, checker, ev);
      case Serve(cid, env) => ServeKeepsCoherent(j, checker, cid, env);
      case Deliver(cid) => NextKeeps(j.c, Answer(cid, j.served[cid])); DeliverKeepsCoherent(j, checker, cid);
      case Other(q, env) =>
        AuthenticateFacts(j.table, checker, q, env);
        KnownGrows(j, Do(j, checker, m));
    }
  }

  function RunJoint(j: Joint, checker: Option<Credentials>, ms: seq<Move>): Joint
    decreases |ms|
  {
    if ms == [] then j else RunJoint(Do(j, checker, ms[0]), checker, ms[1..])
  }

  lemma {:induction false} RunJointKeeps(j: Joint, checker: Option<Credentials>, ms: seq<Move>)
    requires ClientInv(j.c) && Coherent(j)
    ensures var q := RunJoint(j, checker, ms);
            ClientInv(q.c) && Coherent(q) && (j.c.core.session.Some? ==> q.c.core.session == j.c.core.session)
    decreases |ms|
  {
    if ms == [] {
    } else {
      DoKeeps(j, checker, ms[0]);
      RunJointKeeps(Do(j, checker, ms[0]), checker, ms[1..]);
    }
  }

  /** Joint coherence: in every run of one proxifier against one proxy (which may serve others
      too), the proxifier's session is in the proxy's table under the identifier its eight bytes
      decode to, every reply to a connection that presented a session says OK, no session is
      ever killed, and a session once installed stays. */
  lemma JointSessionCoherence(checker: Option<Credentials>, ms: seq<Move>, more: seq<Move>)
    ensures var j := RunJoint(NEW_JOINT, checker, ms);
            && (j.c.core.session.Some? ==>
                  && |j.c.core.session.value.id| == ID_SIZE && Decode(j.c.core.session.value.id) in j.table
                  && Encode(Decode(j.c.core.session.value.id)) == j.c.core.session.value.id
                  && RunJoint(j, checker, more).c.core.session == j.c.core.session)
            && (forall cid :: cid in j.served && cid in j.c.conns && j.c.conns[cid].session.Some? ==>
                  j.served[cid].sessionOk && !j.served[cid].sessionRejected)
            && j.c.kills == 0
  {
    RunJointKeeps(NEW_JOINT, checker, ms);
    var j := RunJoint(NEW_JOINT, checker, ms);
    RunJointKeeps(j, checker, more);
    if j.c.core.session.Some? {
      IdRoundTrip(0, j.c.core.session.value.id);
    }
  }

  /** What a supplicant's addition is for: a request without a session whose credentials pass is
      given exactly then a session when it has been added, with a window of that size, under the
      fresh identifier; one that does not pass is given nothing. */
  lemma AskedIsGranted(t: Table, checker: Option<Credentials>, r: Request, env: Env)
    requires r.sessionId.None? && !r.newSession && env.spawned !in t
    ensures var (u, reply) := Authenticated(t, checker, Asked(r), env);
            var (v, other) := Authenticated(t, checker, r, env);
            && (reply.newId.Some? <==> checker.None? || r.credentials == checker.value)
            && (reply.newId.Some? ==>
                  && reply.newId == Some(Encode(env.spawned)) && Known(u, reply.newId.value)
                  && u.Keys == t.Keys + {env.spawned} && u[env.spawned].Some? && u[env.spawned].value.size == WINDOW
                  && reply.window == Some((env.base, WINDOW)))
            && (reply.newId.None? ==> u == t && !reply.success)
            && other.newId.None? && v == t
  {
    IdRoundTrip(env.spawned, []);
  }

  /** What one asking connection sends, and what becomes of it. */
  function Exchange(j: Joint, checker: Option<Credentials>, cid: Cid, credentials: Credentials, untrusted: bool, env: Env): Joint {
    Do(Do(Do(j, checker, Local(Send(cid, credentials, untrusted, None))), checker, Serve(cid, env)), checker, Deliver(cid))
  }

  /** A supplication, from request to reply: exactly if the credentials pass, the proxifier ends
      up with a session, which is the one the proxy has just made; the lock is free again unless
      the connection was turned away, in which case its destruction frees it. */
  lemma SupplicationInstalls(j: Joint, checker: Option<Credentials>, cid: Cid, credentials: Credentials, untrusted: bool, env: Env)
    requires ClientInv(j.c) && Asks(j.c, cid) && j.c.conns[cid].request.None? && !j.c.conns[cid].answered
    requires cid !in j.served && env.spawned !in j.table
    ensures var q := Exchange(j, checker, cid, credentials, untrusted, env);
            var passes := checker.None? || (if credentials.user != "" then credentials else Credentials("", "")) == checker.value;
            && q.c.core.session == (if passes then Some(Session(j.c.refs, Encode(env.spawned))) else None)
            && (env.spawned in q.table <==> passes)
            && (q.c.core.locked <==> !passes && !j.c.conns[cid].agent)
            && !q.c.core.misuse
  {
    var conn := j.c.conns[cid];
    var r := RequestOf(conn, credentials, untrusted, None);
    var a := Do(j, checker, Local(Send(cid, credentials, untrusted, None)));
    assert a == j.(c := j.c.(conns := j.c.conns[cid := conn.(request := Some(r))]));
    assert j.c.core.locked && j.c.core.session.None?;
    var plain := Request(None, false, Sent(credentials, true), 0, None);
    assert r == Asked(plain);
    AskedIsGranted(j.table, checker, plain, env);
    GrantSucceeds(j.table, checker, plain, env);
    var (u, reply) := Authenticated(j.table, checker, r, env);
    var b := Do(a, checker, Serve(cid, env));
    assert b == a.(table := u, served := a.served[cid := reply]);
  }

  lemma GrantSucceeds(t: Table, checker: Option<Credentials>, r: Request, env: Env)
    requires r.sessionId.None? && r.token.None? && env.spawned !in t
    ensures var reply := Authenticated(t, checker, Asked(r), env).1; reply.success <==> reply.newId.Some?
  {
  }

  // ----- the objects -----

  class Proxifier {
    var session: Option<Session>
    var supplicationLock: bool
    var misuse: bool

    ghost function View(): Core
      reads this
    {
      Core(session, supplicationLock, misuse)
    }

    constructor ()
      ensures View() == NEW_CLIENT.core
    {
      session, supplicationLock, misuse := None, false, false;
    }

    /** `start`: takes the lock for the start-up supplicant. */
    method Start() returns (s: SessionSupplicant)
      requires !supplicationLock
      modifies this
      ensures View() == old(View()).(locked := true)
      ensures fresh(s) && s.proxifier == this && !s.done
    {
      supplicationLock := true;
      s := new SessionSupplicant(this);
    }

    method HandleNewConnection() returns (s: SessionSupplicant?, captured: Option<Session>)
      modifies this
      ensures View() == Admit(old(View())).0 && captured == session
      ensures s != null <==> Admit(old(View())).1
      ensures s != null ==> fresh(s) && s.proxifier == this && !s.done
    {
      s := null;
      var taken := !supplicationLock;
      supplicationLock := true;
      if taken {
        if session.None? {
          s := new SessionSupplicant(this);
        } else {
          SupplicantDone();
        }
      }
      captured := session;
    }

    method KillSession(s: Session)
      modifies this
      ensures View() == Kill(old(View()), s)
    {
      if session.Some? && session.value.ref == s.ref {
        session := None;
      }
    }

    method SetSession(s: Session)
      modifies this
      ensures View() == old(View()).(session := Some(s))
    {
      session := Some(s);
    }

    method SupplicantDone()
      modifies this
      ensures View() == Unlock(old(View()))
    {
      misuse := misuse || !supplicationLock;
      supplicationLock := false;
    }
  }

  class SessionSupplicant {
    const proxifier: Proxifier
    var done: bool

    constructor (proxifier: Proxifier)
      ensures this.proxifier == proxifier && !done
    {
      this.proxifier, done := proxifier, false;
    }

    /** What is granted for it is stated by `AskedIsGranted`. */
    method ProcessRequest(r: Request) returns (q: Request)
      ensures q == Asked(r)
    {
      q := Request(r.sessionId, true, r.credentials, WINDOW, r.token);
    }

    /** `ref` is the identity of the ClientSession object that would be made. */
    method ProcessReply(reply: Reply, ref: nat)
      modifies this, proxifier
      ensures done && proxifier.View() == Supplicate(old(proxifier.View()), ref, reply)
    {
      if reply.newId.Some? {
        proxifier.SetSession(Session(ref, reply.newId.value));
      }
      proxifier.SupplicantDone();
      done := true;
    }

    /** The destructor. */
    method Destroy()
      modifies proxifier
      ensures proxifier.View() == if done then old(proxifier.View()) else Unlock(old(proxifier.View()))
    {
      if !done {
        proxifier.SupplicantDone();
      }
    }
  }
}
