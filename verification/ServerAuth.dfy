/** proxy/authutil.cc over the session table of proxy/proxy.cc and the sessions of
    proxy/serversession.hh. */
module ServerAuth {
  import opened Wrappers
  import opened Codec

  // ----- session identifiers -----

  const ID_SIZE := 8
  type Id = n: nat | n < 0x1_0000_0000_0000_0000

  /** `memcpy` of a 64-bit integer to and from bytes, least significant first. */
  function ToBytes(n: nat, k: nat): (s: seq<byte>)
    ensures |s| == k
    decreases k
  {
    if k == 0 then [] else [n % 256] + ToBytes(n / 256, k - 1)
  }

  function FromBytes(s: seq<byte>): nat
    decreases |s|
  {
    if s == [] then 0 else s[0] + 256 * FromBytes(s[1..])
  }

  function Pow256(k: nat): (n: nat)
    ensures n >= 1
  {
    if k == 0 then 1 else 256 * Pow256(k - 1)
  }

  lemma {:induction false} FromToBytes(n: nat, k: nat)
    requires n < Pow256(k)
    ensures FromBytes(ToBytes(n, k)) == n
    decreases k
  {
    if k == 0 {
    } else {
      FromToBytes(n / 256, k - 1);
      assert ToBytes(n, k)[1..] == ToBytes(n / 256, k - 1);
    }
  }

  lemma {:induction false} ToFromBytes(s: seq<byte>)
    ensures FromBytes(s) < Pow256(|s|) && ToBytes(FromBytes(s), |s|) == s
    decreases |s|
  {
    if s == [] {
    } else {
      ToFromBytes(s[1..]);
      assert FromBytes(s) / 256 == FromBytes(s[1..]) && FromBytes(s) % 256 == s[0];
    }
  }

  lemma Pow256Of8()
    ensures Pow256(ID_SIZE) == 0x1_0000_0000_0000_0000
  {
    assert Pow256(1) == 256 && Pow256(2) == 0x1_0000 && Pow256(4) == 0x1_0000_0000;
    assert Pow256(6) == 0x1_0000_0000_0000;
  }

  function Encode(id: Id): seq<byte> { ToBytes(id, ID_SIZE) }

  function Decode(raw: seq<byte>): (id: Id)
    requires |raw| == ID_SIZE
  {
    ToFromBytes(raw);
    Pow256Of8();
    FromBytes(raw)
  }

  /** Identifiers survive the trip through bytes, in both directions. */
  lemma IdRoundTrip(id: Id, raw: seq<byte>)
    ensures Decode(Encode(id)) == id
    ensures |raw| == ID_SIZE ==> Encode(Decode(raw)) == raw
  {
    Pow256Of8();
    FromToBytes(id, ID_SIZE);
    ToFromBytes(raw);
  }

  // ----- requests, replies, sessions -----

  type Token = n: nat | n < 0x1_0000_0000

  /** The bank library is not part of this model; its contract is that no token is accepted
      twice. `spent` holds the tokens it has accepted. */
  datatype Bank = Bank(base: Token, size: nat, spent: set<Token>)

  predicate Accepts(bank: Bank, token: Token, willing: bool) { willing && token !in bank.spent }

  datatype Credentials = Credentials(user: string, password: string)

  datatype Request = Request(sessionId: Option<seq<byte>>, newSession: bool, credentials: Credentials,
                             windowSize: nat, token: Option<Token>)

  datatype Reply = Reply(success: bool, sessionOk: bool, sessionRejected: bool, newId: Option<seq<byte>>,
                         passwordOk: Option<bool>, window: Option<(Token, nat)>, tokenOk: Option<bool>)

  const FAILURE := Reply(false, false, false, None, None, None, None)

  type Table = map<Id, Option<Bank>>

  /** What is decided outside: the fresh identifier `spawnSession` ends up with, the random base
      of a new bank, and whether the bank would take the token offered. */
  datatype Env = Env(spawned: Id, base: Token, willing: bool)

  function MakeBank(b: Option<Bank>, size: nat, base: Token): Option<Bank> {
    if b.Some? || size == 0 then b else Some(Bank(base, size, {}))
  }

  /** The second half of `authenticate`, for a request that has a session. */
  function Spend(t: Table, id: Id, q: Request, env: Env, reply: Reply): (Table, Reply)
    requires id in t
  {
    var bank := MakeBank(t[id], q.windowSize, env.base);
    var told := if bank.Some? then reply.(window := Some((bank.value.base, bank.value.size))) else reply;
    if q.token.None? then (t[id := bank], told.(success := true))
    else if bank.None? || !Accepts(bank.value, q.token.value, env.willing) then
      (t[id := bank], told.(tokenOk := Some(false)))
    else
      (t[id := Some(bank.value.(spent := bank.value.spent + {q.token.value}))], told.(tokenOk := Some(true), success := true))
  }

  function Authenticated(t: Table, checker: Option<Credentials>, q: Request, env: Env): (Table, Reply) {
    if q.sessionId.Some? then
      if |q.sessionId.value| != ID_SIZE || Decode(q.sessionId.value) !in t then (t, FAILURE.(sessionRejected := true))
      else Spend(t, Decode(q.sessionId.value), q, env, FAILURE.(sessionOk := true))
    else if checker.Some? && q.credentials != checker.value then (t, FAILURE.(passwordOk := Some(false)))
    else
      var reply := if checker.Some? then FAILURE.(passwordOk := Some(true)) else FAILURE;
      if !q.newSession then (t, reply.(success := true))
      else Spend(t[env.spawned := None], env.spawned, q, env, reply.(newId := Some(Encode(env.spawned))))
  }

  // ----- what a reply says, from the request and the table alone -----

  /** A request presents a session the proxy has. */
  predicate Presents(t: Table, q: Request) {
    q.sessionId.Some? && |q.sessionId.value| == ID_SIZE && Decode(q.sessionId.value) in t
  }

  predicate Passes(checker: Option<Credentials>, q: Request) { checker.None? || q.credentials == checker.value }

  /** A request without a session is given one. */
  predicate Spawns(checker: Option<Credentials>, q: Request) { q.sessionId.None? && q.newSession && Passes(checker, q) }

  /** The bank of the request's session before the request, if the session is there and has one. */
  function OldBank(t: Table, q: Request): Option<Bank> { if Presents(t, q) then t[Decode(q.sessionId.value)] else None }

  /** The token offered is good: the session's bank takes it, or a new one that the request asks
      for, or there is no token at all. */
  predicate TokenGood(had: Option<Bank>, q: Request, env: Env) {
    match q.token
    case None => true
    case Some(token) => env.willing && if had.Some? then token !in had.value.spent else q.windowSize > 0
  }

  /** The window a request is told about: that of the bank it finds, or of the one it asks for. */
  function WindowTold(had: Option<Bank>, q: Request, env: Env): Option<(Token, nat)> {
    match had
    case Some(bank) => Some((bank.base, bank.size))
    case None => if q.windowSize > 0 then Some((env.base, q.windowSize)) else None
  }

  /** Every field of the reply, both ways. It is a success exactly if the session presented is
      known and the token good, or if no session is presented, the credentials pass and, where a
      session is asked for, the token is good. A session is rejected exactly if it is not known;
      a password is reported on exactly if it is checked; a token and a window are exactly if
      there is a session. */
  lemma AuthenticateDecides(t: Table, checker: Option<Credentials>, q: Request, env: Env)
    requires env.spawned !in t
    ensures var reply := Authenticated(t, checker, q, env).1;
            var held := Presents(t, q) || Spawns(checker, q);
            var good := TokenGood(OldBank(t, q), q, env);
            && (reply.success <==>
                  if q.sessionId.Some? then Presents(t, q) && good else Passes(checker, q) && (q.newSession ==> good))
            && (reply.sessionOk <==> Presents(t, q))
            && (reply.sessionRejected <==> q.sessionId.Some? && !Presents(t, q))
            && reply.newId == (if Spawns(checker, q) then Some(Encode(env.spawned)) else None)
            && reply.passwordOk == (if q.sessionId.None? && checker.Some? then Some(q.credentials == checker.value) else None)
            && reply.window == (if held then WindowTold(OldBank(t, q), q, env) else None)
            && reply.tokenOk == (if held && q.token.Some? then Some(good) else None)
  {
  }

  /** What becomes of the table: only the request's own session changes, or is new; it keeps its
      bank, or has the one asked for, and a good token is spent in it. */
  lemma AuthenticateStores(t: Table, checker: Option<Credentials>, q: Request, env: Env)
    requires env.spawned !in t
    ensures var u := Authenticated(t, checker, q, env).0;
            if Presents(t, q) || Spawns(checker, q) then
              var id := if Presents(t, q) then Decode(q.sessionId.value) else env.spawned;
              && u == t[id := u[id]]
              && (u[id].Some? <==> WindowTold(OldBank(t, q), q, env).Some?)
              && (u[id].Some? ==>
                    && WindowTold(OldBank(t, q), q, env) == Some((u[id].value.base, u[id].value.size))
                    && u[id].value.spent == (if OldBank(t, q).Some? then OldBank(t, q).value.spent else {}) +
                         (if q.token.Some? && TokenGood(OldBank(t, q), q, env) then {q.token.value} else {}))
            else u == t
  {
  }

  // ----- histories -----

  datatype Entry = Entry(q: Request, reply: Reply)

  datatype History = History(table: Table, log: seq<Entry>)

  /** One request. `spawnSession` retries until its identifier is not in the table. */
  function Serve(h: History, checker: Option<Credentials>, q: Request, env: Env): History {
    if env.spawned in h.table then h
    else
      var r := Authenticated(h.table, checker, q, env);
      History(r.0, h.log + [Entry(q, r.1)])
  }

  function Run(h: History, checker: Option<Credentials>, qs: seq<(Request, Env)>): History
    decreases |qs|
  {
    if qs == [] then h else Run(Serve(h, checker, qs[0].0, qs[0].1), checker, qs[1..])
  }

  const NO_HISTORY := History(map[], [])

  /** The session an entry is about: the one presented, or the one created. */
  function SessionOf(e: Entry): Option<seq<byte>> {
    if e.q.sessionId.Some? then e.q.sessionId else e.reply.newId
  }

  predicate Spends(e: Entry) { e.reply.success && e.q.token.Some? && SessionOf(e).Some? }

  predicate Passed(checker: Option<Credentials>, e: Entry) { checker.Some? && e.q.credentials == checker.value }

  /** Entry `j` created session `id`, after its password was checked if there is a checker. */
  predicate Created(checker: Option<Credentials>, log: seq<Entry>, j: nat, id: Id) {
    && j < |log| && log[j].q.sessionId.None? && log[j].reply.newId == Some(Encode(id))
    && (checker.Some? ==> Passed(checker, log[j]))
  }

  ghost predicate Origins(h: History, checker: Option<Credentials>) {
    forall id :: id in h.table ==> exists j: nat :: Created(checker, h.log, j, id)
  }

  /** Identifiers given out are in the table. */
  ghost predicate Issued(h: History) {
    forall i :: 0 <= i < |h.log| && h.log[i].reply.newId.Some? ==>
      exists id :: id in h.table && h.log[i].reply.newId == Some(Encode(id))
  }

  ghost predicate Distinct(log: seq<Entry>) {
    forall i, j :: 0 <= i < j < |log| && log[i].reply.newId.Some? ==> log[i].reply.newId != log[j].reply.newId
  }

  ghost predicate Traced(h: History, checker: Option<Credentials>) {
    Origins(h, checker) && Issued(h) && Distinct(h.log)
    && (forall i :: 0 <= i < |h.log| ==> Justified(checker, h.log, i))
  }

  /** A success traces to a password check in this request or in the one that created its session. */
  ghost predicate Justified(checker: Option<Credentials>, log: seq<Entry>, i: nat)
    requires i < |log|
  {
    log[i].reply.success ==>
      || (log[i].q.sessionId.None? && (checker.Some? ==> Passed(checker, log[i])))
      || (exists j: nat :: j < i && log[j].q.sessionId.None? && log[j].reply.newId == log[i].q.sessionId
                           && log[i].q.sessionId.Some? && (checker.Some? ==> Passed(checker, log[j])))
  }

  ghost predicate SpentRecorded(h: History) {
    forall i :: 0 <= i < |h.log| && Spends(h.log[i]) ==>
      var raw := SessionOf(h.log[i]).value;
      && |raw| == ID_SIZE && Decode(raw) in h.table && h.table[Decode(raw)].Some?
      && h.log[i].q.token.value in h.table[Decode(raw)].value.spent
  }

  ghost predicate SpentOnce(log: seq<Entry>) {
    forall i, j :: 0 <= i < j < |log| && Spends(log[i]) && Spends(log[j]) ==>
      SessionOf(log[i]) != SessionOf(log[j]) || log[i].q.token != log[j].q.token
  }

  /** The table only grows, and a session's bank is never replaced nor forgets a token. */
  ghost predicate Grows(t: Table, u: Table) {
    forall id :: id in t ==> id in u && (t[id].Some? ==> u[id].Some? && SameBank(t[id].value, u[id].value))
  }

  ghost predicate SameBank(b: Bank, c: Bank) { c.base == b.base && c.size == b.size && b.spent <= c.spent }

  /** All that matters about one answered request: `e` took the table from `t` to `u`, and `id`
      was the identifier at hand for a new session. */
  ghost predicate Facts(t: Table, u: Table, checker: Option<Credentials>, e: Entry, id: Id) {
    && Grows(t, u)
    && (forall x :: x in u && x !in t ==> x == id && e.reply.newId.Some?)
    && (e.reply.newId.Some? ==>
          e.reply.newId == Some(Encode(id)) && e.q.sessionId.None? && id in u && (checker.Some? ==> Passed(checker, e)))
    && (e.reply.success && e.q.sessionId.Some? ==> |e.q.sessionId.value| == ID_SIZE && Decode(e.q.sessionId.value) in t)
    && (e.reply.success && e.q.sessionId.None? && checker.Some? ==> Passed(checker, e))
  }

  lemma AuthenticateFacts(t: Table, checker: Option<Credentials>, q: Request, env: Env)
    requires env.spawned !in t
    ensures var (u, reply) := Authenticated(t, checker, q, env);
            Facts(t, u, checker, Entry(q, reply), env.spawned)
  {
  }

  /** A token that is accepted was not spent before in that session, and is from now on. */
  ghost predicate NewlySpent(t: Table, u: Table, e: Entry) {
    Spends(e) ==>
      var raw := SessionOf(e).value;
      && |raw| == ID_SIZE && Decode(raw) in u && u[Decode(raw)].Some?
      && e.q.token.value in u[Decode(raw)].value.spent
      && (Decode(raw) in t && t[Decode(raw)].Some? ==> e.q.token.value !in t[Decode(raw)].value.spent)
  }

  lemma SpendIsNew(t: Table, checker: Option<Credentials>, q: Request, env: Env)
    requires env.spawned !in t
    ensures var (u, reply) := Authenticated(t, checker, q, env);
            NewlySpent(t, u, Entry(q, reply))
  {
    IdRoundTrip(env.spawned, []);
  }

  lemma ServeOrigins(h: History, u: Table, checker: Option<Credentials>, e: Entry, id: Id)
    requires Origins(h, checker) && Facts(h.table, u, checker, e, id)
    ensures Origins(History(u, h.log + [e]), checker)
  {
    var log := h.log + [e];
    forall x | x in u
      ensures exists j: nat :: Created(checker, log, j, x)
    {
      if x in h.table {
        var j: nat :| Created(checker, h.log, j, x);
        assert Created(checker, log, j, x);
      } else {
        assert Created(checker, log, |h.log|, x);
      }
    }
  }

  lemma ServeIssued(h: History, u: Table, checker: Option<Credentials>, e: Entry, id: Id)
    requires Issued(h) && Distinct(h.log) && Facts(h.table, u, checker, e, id) && id !in h.table
    ensures Issued(History(u, h.log + [e])) && Distinct(h.log + [e])
  {
    forall i | 0 <= i < |h.log| && h.log[i].reply.newId.Some?
      ensures (exists x :: x in u && h.log[i].reply.newId == Some(Encode(x))) && h.log[i].reply.newId != e.reply.newId
    {
      var x :| x in h.table && h.log[i].reply.newId == Some(Encode(x));
      IdRoundTrip(x, []);
      IdRoundTrip(id, []);
    }
  }

  lemma ServeJustified(h: History, u: Table, checker: Option<Credentials>, e: Entry, id: Id)
    requires Origins(h, checker) && Facts(h.table, u, checker, e, id)
    requires forall i :: 0 <= i < |h.log| ==> Justified(checker, h.log, i)
    ensures forall i :: 0 <= i <= |h.log| ==> Justified(checker, h.log + [e], i)
  {
    var log := h.log + [e];
    forall i | 0 <= i <= |h.log|
      ensures Justified(checker, log, i)
    {
      if i < |h.log| {
        assert Justified(checker, h.log, i);
        if h.log[i].reply.success && h.log[i].q.sessionId.Some? {
          var j: nat :| j < i && h.log[j].q.sessionId.None? && h.log[j].reply.newId == h.log[i].q.sessionId
                        && (checker.Some? ==> Passed(checker, h.log[j]));
          assert log[j] == h.log[j];
        }
      } else if e.reply.success && e.q.sessionId.Some? {
        IdRoundTrip(0, e.q.sessionId.value);
        var j: nat :| Created(checker, h.log, j, Decode(e.q.sessionId.value));
        assert log[j] == h.log[j];
      }
    }
  }

  lemma ServeSpends(h: History, u: Table, e: Entry)
    requires SpentRecorded(h) && SpentOnce(h.log) && Grows(h.table, u) && NewlySpent(h.table, u, e)
    ensures SpentRecorded(History(u, h.log + [e])) && SpentOnce(h.log + [e])
  {
  }

  lemma ServeKeeps(h: History, checker: Option<Credentials>, q: Request, env: Env)
    requires Traced(h, checker) && SpentRecorded(h) && SpentOnce(h.log)
    ensures var g := Serve(h, checker, q, env); Traced(g, checker) && SpentRecorded(g) && SpentOnce(g.log)
  {
    if env.spawned !in h.table {
      var (u, reply) := Authenticated(h.table, checker, q, env);
      var e := Entry(q, reply);
      AuthenticateFacts(h.table, checker, q, env);
      SpendIsNew(h.table, checker, q, env);
      ServeOrigins(h, u, checker, e, env.spawned);
      ServeIssued(h, u, checker, e, env.spawned);
      ServeJustified(h, u, checker, e, env.spawned);
      ServeSpends(h, u, e);
    }
  }

  lemma {:induction false} RunKeeps(h: History, checker: Option<Credentials>, qs: seq<(Request, Env)>)
    requires Traced(h, checker) && SpentRecorded(h) && SpentOnce(h.log)
    ensures var g := Run(h, checker, qs); Traced(g, checker) && SpentRecorded(g) && SpentOnce(g.log)
    decreases |qs|
  {
    if qs == [] {
    } else {
      ServeKeeps(h, checker, qs[0].0, qs[0].1);
      RunKeeps(Serve(h, checker, qs[0].0, qs[0].1), checker, qs[1..]);
    }
  }

  /** Provenance: with a password checker set, over any request history every successful reply
      traces to credentials that passed, in that very request or in an earlier one that was
      given the session it presents. */
  lemma AuthenticationProvenance(password: Credentials, qs: seq<(Request, Env)>, i: nat)
    requires i < |Run(NO_HISTORY, Some(password), qs).log|
    ensures var log := Run(NO_HISTORY, Some(password), qs).log;
            log[i].reply.success ==>
              || (log[i].q.sessionId.None? && log[i].q.credentials == password)
              || (exists j: nat :: j < i && log[j].q.credentials == password && log[j].reply.newId.Some?
                                   && log[j].reply.newId == log[i].q.sessionId)
  {
    RunKeeps(NO_HISTORY, Some(password), qs);
    var log := Run(NO_HISTORY, Some(password), qs).log;
    assert Justified(Some(password), log, i);
  }

  /** Over any request history each token of each session earns at most one success, and no
      session identifier is ever given out twice. */
  lemma TokenSpentOnce(checker: Option<Credentials>, qs: seq<(Request, Env)>, i: nat, j: nat)
    requires i < j < |Run(NO_HISTORY, checker, qs).log|
    ensures var log := Run(NO_HISTORY, checker, qs).log;
            && !(Spends(log[i]) && Spends(log[j]) && SessionOf(log[i]) == SessionOf(log[j]) && log[i].q.token == log[j].q.token)
            && (log[i].reply.newId.Some? ==> log[i].reply.newId != log[j].reply.newId)
  {
    RunKeeps(NO_HISTORY, checker, qs);
  }

  // ----- the objects -----

  class ServerSession {
    const id: Id
    var tokenBank: Option<Bank>

    constructor (id: Id)
      ensures this.id == id && tokenBank == None
    {
      this.id, tokenBank := id, None;
    }

    /** A bank is made at most once per session. */
    method CreateBank(size: nat, base: Token)
      modifies this
      ensures tokenBank == MakeBank(old(tokenBank), size, base)
    {
      if tokenBank.Some? {
        return;
      }
      if size == 0 {
        return;
      }
      tokenBank := Some(Bank(base, size, {}));
    }

    method Withdraw(token: Token, willing: bool) returns (ok: bool)
      requires tokenBank.Some?
      modifies this
      ensures ok == Accepts(old(tokenBank.value), token, willing)
      ensures tokenBank == if ok then Some(old(tokenBank.value).(spent := old(tokenBank.value).spent + {token})) else old(tokenBank)
    {
      ok := willing && token !in tokenBank.value.spent;
      if ok {
        tokenBank := Some(tokenBank.value.(spent := tokenBank.value.spent + {token}));
      }
    }
  }

  /** Number `i` is the first drawn that is not in use. */
  ghost predicate First(used: set<Id>, drawn: seq<Id>, i: nat)
    requires i < |drawn|
  {
    drawn[i] !in used && forall j :: 0 <= j < i ==> drawn[j] in used
  }

  /** The first identifier drawn that is not in use. */
  function Draw(used: set<Id>, drawn: seq<Id>): (id: Id)
    requires exists i :: 0 <= i < |drawn| && drawn[i] !in used
    ensures exists i: nat :: i < |drawn| && drawn[i] == id && First(used, drawn, i)
    decreases |drawn|
  {
    if drawn[0] !in used then
      assert First(used, drawn, 0);
      drawn[0]
    else
      assert exists i :: 0 <= i < |drawn[1..]| && drawn[1..][i] !in used by {
        var i :| 0 <= i < |drawn| && drawn[i] !in used;
        assert drawn[1..][i - 1] == drawn[i];
      }
      var id := Draw(used, drawn[1..]);
      assert exists i: nat :: i < |drawn| && drawn[i] == id && First(used, drawn, i) by {
        var i: nat :| i < |drawn[1..]| && drawn[1..][i] == id && First(used, drawn[1..], i);
        assert drawn[i + 1] == id;
        assert forall j :: 0 < j < i + 1 ==> drawn[j] == drawn[1..][j - 1];
        assert First(used, drawn, i + 1);
      }
      id
  }

  class Proxy {
    var sessions: map<Id, ServerSession>
    const checker: Option<Credentials>

    ghost predicate Valid()
      reads this
    {
      forall id :: id in sessions ==> sessions[id].id == id
    }

    ghost function View(): Table
      reads this, sessions.Values
    {
      map id | id in sessions :: sessions[id].tokenBank
    }

    constructor (checker: Option<Credentials>)
      ensures Valid() && View() == map[] && this.checker == checker
    {
      this.checker := checker;
      sessions := map[];
    }

    /** `drawn` are the random identifiers, of which one at least is unused. */
    method SpawnSession(drawn: seq<Id>) returns (s: ServerSession)
      requires Valid() && exists i :: 0 <= i < |drawn| && drawn[i] !in sessions
      modifies this
      ensures Valid() && fresh(s) && s.id == Draw(old(sessions).Keys, drawn) && s.tokenBank == None
      ensures sessions == old(sessions)[s.id := s]
    {
      var k := 0;
      while drawn[k] in sessions
        invariant 0 <= k < |drawn|
        invariant exists i :: k <= i < |drawn| && drawn[i] !in sessions
        invariant Draw(sessions.Keys, drawn) == Draw(sessions.Keys, drawn[k..])
        decreases |drawn| - k
      {
        assert drawn[k..][1..] == drawn[k + 1..];
        k := k + 1;
      }
      s := new ServerSession(drawn[k]);
      sessions := sessions[s.id := s];
    }

    /** `AuthUtil::authenticate`. */
    method Authenticate(q: Request, drawn: seq<Id>, base: Token, willing: bool) returns (reply: Reply)
      requires Valid() && exists i :: 0 <= i < |drawn| && drawn[i] !in sessions
      modifies this, sessions.Values
      ensures Valid()
      ensures (View(), reply)
           == Authenticated(old(View()), checker, q, Env(Draw(old(sessions).Keys, drawn), base, willing))
    {
      reply := FAILURE;
      if q.sessionId.Some? {
        if |q.sessionId.value| != ID_SIZE || Decode(q.sessionId.value) !in sessions {
          return reply.(sessionRejected := true);
        }
        reply := reply.(sessionOk := true);
        reply := Settle(Decode(q.sessionId.value), q, base, willing, reply);
        return;
      }
      if checker.Some? {
        var ok := q.credentials == checker.value;
        reply := reply.(passwordOk := Some(ok));
        if !ok {
          return;
        }
      }
      if !q.newSession {
        return reply.(success := true);
      }
      var s := SpawnSession(drawn);
      reply := reply.(newId := Some(Encode(s.id)));
      assert View() == old(View())[s.id := None];
      reply := Settle(s.id, q, base, willing, reply);
    }

    /** Idempotence: make the bank if asked to, advertise it, spend the token. */
    method Settle(id: Id, q: Request, base: Token, willing: bool, reply: Reply) returns (r: Reply)
      requires Valid() && id in sessions
      modifies sessions.Values
      ensures Valid() && sessions == old(sessions)
      ensures forall env: Env :: env.base == base && env.willing == willing ==>
                (View(), r) == Spend(old(View()), id, q, env, reply)
    {
      r := reply;
      var s := sessions[id];
      assert forall x :: x in sessions && x != id ==> sessions[x] != s;
      s.CreateBank(q.windowSize, base);
      if s.tokenBank.Some? {
        r := r.(window := Some((s.tokenBank.value.base, s.tokenBank.value.size)));
      }
      if q.token.None? {
        r := r.(success := true);
      } else if s.tokenBank.None? {
        r := r.(tokenOk := Some(false));
      } else {
        var ok := s.Withdraw(q.token.value, willing);
        r := if ok then r.(tokenOk := Some(true), success := true) else r.(tokenOk := Some(false));
      }
      assert View() == old(View())[id := s.tokenBank];
    }
  }
}
