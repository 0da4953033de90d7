/** core/poller.cc and core/poller.hh over the kernel's epoll, core/uniqfd.hh and the ways the
    reactors use them. A user-space table caches what epoll watches, while descriptors are
    closed, duplicated and their numbers reused. Nothing here keeps a reactor from asking twice
    or from closing what is registered: that they do not is a property of their logs. */
module Dispatcher {
  import opened Wrappers
  import opened Logs

  type Fd = nat     // a descriptor number
  type File = nat   // an open file description, which duplicated descriptors share
  type Rid = nat    // a reactor

  // ----- the kernel -----

  /** One-shot: the watch stays in the interest set after it fired, disarmed. */
  datatype Watch = Watch(armed: bool, dir: Dir)

  datatype Halves = Halves(readShut: bool, writeShut: bool)

  /** epoll keys its interest set by descriptor number and file description together. */
  datatype Kernel = Kernel(open: map<Fd, File>, interest: map<(Fd, File), Watch>, halves: map<File, Halves>)

  predicate Watched(k: Kernel, fd: Fd) { fd in k.open && (fd, k.open[fd]) in k.interest }

  /** A source is a `UniqRecvFD`, which shuts the read half when it goes, a destination is a
      `UniqSendFD`, which shuts the write half, and any other descriptor is a bare `UniqFD`. */
  function Shut(k: Kernel, f: File, side: Side): map<File, Halves> {
    if f !in k.halves then k.halves
    else
      match side
      case Src => k.halves[f := k.halves[f].(readShut := true)]
      case Dst => k.halves[f := k.halves[f].(writeShut := true)]
      case _ => k.halves
  }

  /** `close`: only the last descriptor of a file takes the file's watches with it; otherwise a
      watch that was not removed stays behind under a number that may be reused. */
  function CloseFd(k: Kernel, fd: Fd, side: Side): Kernel
    requires fd in k.open
  {
    var f := k.open[fd];
    var rest := k.open - {fd};
    var last := forall g :: g in rest ==> rest[g] != f;
    Kernel(rest, if last then map key | key in k.interest && key.1 != f :: k.interest[key] else k.interest,
           Shut(k, f, side))
  }

  // ----- the poller -----

  datatype Entry = Entry(reactor: Option<Rid>, registered: bool)

  /** `clash`: an `epoll_ctl` failed: an ADD met an existing entry, a MOD a missing one, or the
      descriptor was closed or beyond the table. */
  datatype Poll = Poll(table: seq<Entry>, kernel: Kernel, clash: bool)

  predicate Refused(p: Poll, fd: Fd) {
    fd >= |p.table| || fd !in p.kernel.open || (p.table[fd].registered <==> !Watched(p.kernel, fd))
  }

  /** `Poller::add` for an active reactor. */
  function Register(p: Poll, r: Rid, fd: Fd, dir: Dir): Poll {
    if Refused(p, fd) then p.(clash := true)
    else
      var key := (fd, p.kernel.open[fd]);
      p.(kernel := p.kernel.(interest := p.kernel.interest[key := Watch(true, dir)]),
         table := p.table[fd := Entry(Some(r), true)])
  }

  /** `Poller::remove`; a missing entry is no error for EPOLL_CTL_DEL, a closed descriptor is. */
  function Unregister(p: Poll, fd: Fd): Poll {
    if fd >= |p.table| || !p.table[fd].registered then p
    else if fd !in p.kernel.open then p.(clash := true)
    else
      p.(kernel := p.kernel.(interest := p.kernel.interest - {(fd, p.kernel.open[fd])}),
         table := p.table[fd := Entry(None, false)])
  }

  /** One-shot delivery: the watch is disarmed and the table forgets the reactor. */
  function Disarm(p: Poll, fd: Fd, file: File): Poll
    requires fd < |p.table| && (fd, file) in p.kernel.interest
  {
    var k := p.kernel;
    p.(kernel := k.(interest := k.interest[(fd, file) := k.interest[(fd, file)].(armed := false)]),
       table := p.table[fd := p.table[fd].(reactor := None)])
  }

  /** The table and epoll agree: registered means watched, every watch belongs to an open
      descriptor under its present file, and a reactor is recorded exactly while armed. */
  ghost predicate Agrees(p: Poll) {
    && (forall fd :: 0 <= fd < |p.table| ==> (p.table[fd].registered <==> Watched(p.kernel, fd)))
    && (forall key :: key in p.kernel.interest ==>
          key.0 in p.kernel.open && p.kernel.open[key.0] == key.1 && key.0 < |p.table|)
    && (forall fd :: 0 <= fd < |p.table| ==>
          (p.table[fd].reactor.Some? <==>
             Watched(p.kernel, fd) && p.kernel.interest[(fd, p.kernel.open[fd])].armed))
    && (forall fd :: fd in p.kernel.open ==> fd < |p.table|)
    && !p.clash
  }

  /** epoll's own rules: an ADD of what is watched, a MOD of what is not, and any call on a closed
      descriptor fail, and so does a number beyond the table; a failed call changes nothing else.
      A DEL fails only on a closed descriptor. */
  lemma EpollDecides(p: Poll, r: Rid, fd: Fd, dir: Dir)
    ensures var q := Register(p, r, fd, dir);
            var watched := fd in p.kernel.open && (fd, p.kernel.open[fd]) in p.kernel.interest;
            var known := fd < |p.table| && p.table[fd].registered;
            var fails := fd >= |p.table| || fd !in p.kernel.open || (!known && watched) || (known && !watched);
            && (q.clash <==> p.clash || fails) && (fails ==> q.table == p.table && q.kernel == p.kernel)
            && (!fails ==>
                  && q.table == p.table[fd := Entry(Some(r), true)] && q.kernel.open == p.kernel.open
                  && q.kernel.interest == p.kernel.interest[(fd, p.kernel.open[fd]) := Watch(true, dir)])
    ensures var q := Unregister(p, fd);
            var known := fd < |p.table| && p.table[fd].registered;
            var fails := known && fd !in p.kernel.open;
            && (q.clash <==> p.clash || fails) && (!known || fails ==> q.table == p.table && q.kernel == p.kernel)
            && (known && !fails ==>
                  && q.table == p.table[fd := Entry(None, false)] && q.kernel.open == p.kernel.open
                  && q.kernel.interest == p.kernel.interest - {(fd, p.kernel.open[fd])})
  {
  }

  lemma AddAgrees(p: Poll, r: Rid, fd: Fd, dir: Dir)
    requires Agrees(p) && fd in p.kernel.open
    ensures var q := Register(p, r, fd, dir);
            && Agrees(q) && q.table == p.table[fd := Entry(Some(r), true)]
            && q.kernel == p.kernel.(interest := p.kernel.interest[(fd, p.kernel.open[fd]) := Watch(true, dir)])
  {
  }

  lemma RemoveAgrees(p: Poll, fd: Fd)
    requires Agrees(p) && fd in p.kernel.open
    ensures var q := Unregister(p, fd);
            && Agrees(q) && q.table == p.table[fd := Entry(None, false)]
            && q.kernel == p.kernel.(interest := p.kernel.interest - {(fd, p.kernel.open[fd])})
  {
    if !p.table[fd].registered {
      assert p.table[fd] == Entry(None, false);
      assert p.table == p.table[fd := Entry(None, false)];
      assert p.kernel.interest == p.kernel.interest - {(fd, p.kernel.open[fd])};
    }
  }

  /** A descriptor that is not registered can be closed without leaving a watch behind. */
  lemma CloseAgrees(p: Poll, fd: Fd, side: Side)
    requires Agrees(p) && fd in p.kernel.open && !p.table[fd].registered
    ensures Agrees(p.(kernel := CloseFd(p.kernel, fd, side)))
    ensures CloseFd(p.kernel, fd, side).interest == p.kernel.interest
  {
    var k := CloseFd(p.kernel, fd, side);
    forall key | key in p.kernel.interest
      ensures key in k.interest
    {
      assert key.0 != fd;
      assert key.0 in k.open && k.open[key.0] == key.1;
    }
    assert k.interest == p.kernel.interest;
  }

  /** One that is registered cannot, if its file has another descriptor: that is why it matters. */
  lemma CloseWhileRegisteredDisagrees(p: Poll, fd: Fd, other: Fd, side: Side)
    requires Agrees(p) && fd in p.kernel.open && p.table[fd].registered
    requires other in p.kernel.open && other != fd && p.kernel.open[other] == p.kernel.open[fd]
    ensures !Agrees(p.(kernel := CloseFd(p.kernel, fd, side)))
  {
    var k := CloseFd(p.kernel, fd, side);
    assert other in k.open && k.open[other] == p.kernel.open[fd];
    assert (fd, p.kernel.open[fd]) in k.interest;
  }

  lemma OpenAgrees(p: Poll, fd: Fd, file: File, halves: map<File, Halves>)
    requires Agrees(p) && fd !in p.kernel.open && fd < |p.table|
    ensures Agrees(p.(kernel := p.kernel.(open := p.kernel.open[fd := file], halves := halves)))
    ensures !p.table[fd].registered
  {
    var k := p.kernel.(open := p.kernel.open[fd := file], halves := halves);
    assert forall g :: g != fd ==> (Watched(k, g) <==> Watched(p.kernel, g));
    assert !Watched(k, fd);
  }

  lemma DisarmAgrees(p: Poll, fd: Fd, file: File)
    requires Agrees(p) && fd < |p.table| && (fd, file) in p.kernel.interest
    ensures Agrees(Disarm(p, fd, file))
  {
    assert p.kernel.open[fd] == file;
  }

  // ----- the loop, with the reactors' use of descriptors -----

  /** One of a reactor's descriptors. */
  datatype End = End(r: Rid, side: Side)

  /** `fds`: the open descriptors, each owned by one reactor. `raw`: a ReadableDeferReactor knows
      the number of another reactor's descriptor. `stack`: the reactors on the call stack of the
      only thread. `logs`: what each has done. `lost`: an event found a null or an inactive
      reactor, so the loop crashed or was left. `stale`: a descriptor was closed while registered. */
  datatype Loop = Loop(poll: Poll, fds: map<End, Fd>, raw: map<Rid, End>, active: map<Rid, bool>,
                       stack: seq<Rid>, logs: map<Rid, seq<Action>>, lost: bool, stale: bool)

  function NewLoop(size: nat): Loop {
    Loop(Poll(seq(size, _ => Entry(None, false)), Kernel(map[], map[], map[]), false),
         map[], map[], map[], [], map[], false, false)
  }

  function LogOf(w: Loop, r: Rid): seq<Action> { if r in w.logs then w.logs[r] else [] }

  /** The number a reactor would pass to the poller for one of its sides, if it is not -1. */
  function FdOf(w: Loop, r: Rid, side: Side): Option<Fd> {
    if side.Raw? then
      if r in w.raw && w.raw[r] in w.fds then Some(w.fds[w.raw[r]]) else None
    else if End(r, side) in w.fds then Some(w.fds[End(r, side)]) else None
  }

  /** Reactors are created, learn numbers, obtain descriptors from `socket`, `accept` or `dup`,
      are entered (by `start`, an event, or another reactor) and left, and in between do to the
      poller and to their descriptors whatever they do. */
  datatype Event =
    | Create(r: Rid) | Borrow(r: Rid, end: End)
    | NewSocket(r: Rid, side: Side, fd: Fd, file: File) | Dup(r: Rid, side: Side, from: End, fd: Fd)
    | Deliver(fd: Fd, file: File) | Enter(r: Rid) | Return
    | Do(r: Rid, act: Action)

  /** `handleNewConnection` starts the ReadableDeferReactor before the owner of the descriptor,
      and its only call of the poller is in `start`. */
  predicate Lent(w: Loop, e: End) { e in w.fds && LogOf(w, e.r) == [] }

  predicate Free(w: Loop, r: Rid, side: Side, fd: Fd) {
    r in w.active && !side.Raw? && End(r, side) !in w.fds && fd !in w.poll.kernel.open && fd < |w.poll.table|
  }

  predicate Possible(w: Loop, r: Rid, a: Action) {
    match a
    case Fired => false
    case Add(side, _) => side.Raw? ==> r in w.raw && Lent(w, w.raw[r])
    case Remove(side) => !side.Raw?
    case Reset(side) => !side.Raw?
    case Quit => true
  }

  predicate Enabled(w: Loop, ev: Event) {
    var k := w.poll.kernel;
    match ev
    case Create(r) => r !in w.active
    case Borrow(r, e) => r in w.active && r !in w.raw && Lent(w, e)
    case NewSocket(r, side, fd, file) => Free(w, r, side, fd) && file !in k.halves
    case Dup(r, side, from, fd) => Free(w, r, side, fd) && from in w.fds && w.fds[from] in k.open
    case Deliver(fd, file) =>
      w.stack == [] && !w.lost && fd < |w.poll.table| && (fd, file) in k.interest && k.interest[(fd, file)].armed
    case Enter(r) => r in w.active
    case Return => w.stack != []
    case Do(r, a) => r in w.active && Possible(w, r, a)
  }

  function Logged(w: Loop, r: Rid, a: Action): Loop { w.(logs := w.logs[r := LogOf(w, r) + [a]]) }

  /** `threadFun`: look the reactor up, clear the table's reference, check that it is active. */
  function Delivered(w: Loop, fd: Fd, file: File): Loop
    requires fd < |w.poll.table| && (fd, file) in w.poll.kernel.interest
  {
    var who := w.poll.table[fd].reactor;
    var fine := who.Some? && who.value in w.active && w.active[who.value];
    w.(poll := Disarm(w.poll, fd, file), lost := w.lost || !fine, stack := if fine then [who.value] else w.stack,
       logs := if who.None? then w.logs else w.logs[who.value := LogOf(w, who.value) + [Fired]])
  }

  function Forget(p: Poll, fd: Option<Fd>): Poll { if fd.None? then p else Unregister(p, fd.value) }

  /** `deactivate` removes the descriptors the reactor owns. */
  function Deactivated(w: Loop, r: Rid): Poll {
    Forget(Forget(Forget(w.poll, FdOf(w, r, Src)), FdOf(w, r, Dst)), FdOf(w, r, Sock))
  }

  /** What an action does to poller and kernel. On a descriptor that is -1 it does nothing. */
  function Perform(w: Loop, r: Rid, a: Action): Loop
    requires r in w.active
  {
    match a
    case Fired => w
    case Add(side, dir) =>
      var fd := FdOf(w, r, side);
      if fd.None? || !w.active[r] then w else w.(poll := Register(w.poll, r, fd.value, dir))
    case Remove(side) => w.(poll := Forget(w.poll, FdOf(w, r, side)))
    case Reset(side) =>
      var fd := FdOf(w, r, side);
      if fd.None? || fd.value !in w.poll.kernel.open then w
      else w.(poll := w.poll.(kernel := CloseFd(w.poll.kernel, fd.value, side)), fds := w.fds - {End(r, side)},
              stale := w.stale || (fd.value < |w.poll.table| && w.poll.table[fd.value].registered))
    case Quit => w.(poll := Deactivated(w, r), active := w.active[r := false])
  }

  function Opened(w: Loop, e: End, fd: Fd, file: File, halves: map<File, Halves>): Loop {
    var k := w.poll.kernel;
    w.(poll := w.poll.(kernel := k.(open := k.open[fd := file], halves := halves)), fds := w.fds[e := fd])
  }

  function Next(w: Loop, ev: Event): Loop {
    if !Enabled(w, ev) then w else
    var k := w.poll.kernel;
    match ev
    case Create(r) => w.(active := w.active[r := true])
    case Borrow(r, e) => w.(raw := w.raw[r := e])
    case NewSocket(r, side, fd, file) => Opened(w, End(r, side), fd, file, k.halves[file := Halves(false, false)])
    case Dup(r, side, from, fd) => Opened(w, End(r, side), fd, k.open[w.fds[from]], k.halves)
    case Deliver(fd, file) => Delivered(w, fd, file)
    case Enter(r) => w.(stack := [r] + w.stack)
    case Return => w.(stack := w.stack[1..])
    case Do(r, a) => Logged(Perform(w, r, a), r, a)
  }

  function Run(w: Loop, evs: seq<Event>): Loop
    decreases |evs|
  {
    if evs == [] then w else Run(Next(w, evs[0]), evs[1..])
  }

  // ----- what runs keep -----

  /** Every descriptor is owned once, by a reactor that exists, and is open. */
  ghost predicate Owned(w: Loop) {
    && (forall e :: e in w.fds ==> !e.side.Raw? && e.r in w.active && w.fds[e] in w.poll.kernel.open)
    && (forall e, f :: e in w.fds && f in w.fds && w.fds[e] == w.fds[f] ==> e == f)
    && (forall fd :: fd in w.poll.kernel.open ==> w.poll.kernel.open[fd] in w.poll.kernel.halves)
  }

  /** What a reactor's own log says it waits on, and what it has removed. */
  function Waits(w: Loop, r: Rid): Option<Side> { Judged(LogOf(w, r)).armed }

  function Removed(w: Loop, r: Rid): set<Side> { Judged(LogOf(w, r)).removed }

  /** A reactor the table refers to is active, and waits on that descriptor by its own log. */
  ghost predicate Holds(w: Loop, r: Rid, fd: Fd) {
    && r in w.active && w.active[r]
    && Waits(w, r).Some? && FdOf(w, r, Waits(w, r).value) == Some(fd)
  }

  ghost predicate Held(w: Loop) {
    forall fd :: 0 <= fd < |w.poll.table| && w.poll.table[fd].reactor.Some? ==> Holds(w, w.poll.table[fd].reactor.value, fd)
  }

  predicate Registered(w: Loop, e: End) {
    e in w.fds && w.fds[e] < |w.poll.table| && w.poll.table[w.fds[e]].registered
  }

  /** What its owner has removed is not registered. */
  ghost predicate Cleared(w: Loop) { forall e :: Registered(w, e) ==> e.side !in Removed(w, e.r) }

  ghost predicate Inv(w: Loop) { Agrees(w.poll) && Owned(w) && Held(w) && Cleared(w) && !w.lost && !w.stale }

  ghost predicate LogsObey(w: Loop) { forall r :: r in w.logs ==> Obeys(w.logs[r]) }

  // ----- frames -----

  /** `x` is what it was. */
  ghost predicate Same(w: Loop, q: Loop, x: Rid) {
    && (x in w.active ==> x in q.active && q.active[x] == w.active[x])
    && LogOf(q, x) == LogOf(w, x)
    && (forall side :: FdOf(w, x, side).Some? ==> FdOf(q, x, side) == FdOf(w, x, side))
  }

  lemma HoldsSame(w: Loop, q: Loop, x: Rid, fd: Fd)
    requires Holds(w, x, fd) && Same(w, q, x)
    ensures Holds(q, x, fd)
  {
  }

  /** References go, or stay with reactors that are what they were, or are accounted for. */
  lemma HeldAfter(w: Loop, q: Loop)
    requires Held(w) && |q.poll.table| == |w.poll.table|
    requires forall g :: 0 <= g < |w.poll.table| && q.poll.table[g].reactor.Some? ==>
               || (q.poll.table[g].reactor == w.poll.table[g].reactor && Same(w, q, q.poll.table[g].reactor.value))
               || Holds(q, q.poll.table[g].reactor.value, g)
    ensures Held(q)
  {
    forall g | 0 <= g < |q.poll.table| && q.poll.table[g].reactor.Some?
      ensures Holds(q, q.poll.table[g].reactor.value, g)
    {
      var x := q.poll.table[g].reactor.value;
      if !Holds(q, x, g) {
        HoldsSame(w, q, x, g);
      }
    }
  }

  /** Only `r`'s log changes. */
  lemma LoggedLogs(w: Loop, r: Rid, a: Action)
    ensures forall x :: LogOf(Logged(w, r, a), x) == if x == r then LogOf(w, r) + [a] else LogOf(w, x)
    ensures Waits(Logged(w, r, a), r) == Judge(Judged(LogOf(w, r)), a).armed
    ensures Removed(Logged(w, r, a), r) == Judge(Judged(LogOf(w, r)), a).removed
  {
    JudgedNext(LogOf(w, r), a);
  }

  /** Registrations go, and the logs of all but `r` are what they were. */
  lemma ClearedAfter(w: Loop, q: Loop, r: Rid)
    requires Cleared(w) && q.fds == w.fds && |q.poll.table| == |w.poll.table|
    requires forall g :: 0 <= g < |w.poll.table| && q.poll.table[g].registered ==> w.poll.table[g].registered
    requires forall x :: x != r ==> LogOf(q, x) == LogOf(w, x)
    requires forall e :: Registered(q, e) && e.r == r ==> e.side !in Removed(q, r)
    ensures Cleared(q)
  {
    hide Judged, LogOf;
    forall x | Registered(q, x)
      ensures x.side !in Removed(q, x.r)
    {
      assert Registered(w, x);
    }
  }

  lemma OwnedAfter(w: Loop, q: Loop)
    requires Owned(w) && q.fds == w.fds && w.active.Keys <= q.active.Keys
    requires q.poll.kernel.open == w.poll.kernel.open && q.poll.kernel.halves == w.poll.kernel.halves
    ensures Owned(q)
  {
  }

  // ----- each kind of event -----

  lemma OpenOwned(w: Loop, e: End, fd: Fd, file: File, halves: map<File, Halves>)
    requires Owned(w) && Free(w, e.r, e.side, fd) && w.poll.kernel.halves.Keys <= halves.Keys && file in halves
    ensures Owned(Opened(w, e, fd, file, halves))
  {
  }

  lemma OpenKeeps(w: Loop, e: End, fd: Fd, file: File, halves: map<File, Halves>)
    requires Inv(w) && Free(w, e.r, e.side, fd) && w.poll.kernel.halves.Keys <= halves.Keys && file in halves
    ensures Inv(Opened(w, e, fd, file, halves))
  {
    var q := Opened(w, e, fd, file, halves);
    OpenAgrees(w.poll, fd, file, halves);
    OpenOwned(w, e, fd, file, halves);
    OpenRest(w, q, e, fd);
  }

  lemma OpenRest(w: Loop, q: Loop, e: End, fd: Fd)
    requires Held(w) && Cleared(w) && e !in w.fds && fd < |w.poll.table| && !w.poll.table[fd].registered
    requires q == w.(poll := q.poll, fds := w.fds[e := fd]) && q.poll.table == w.poll.table
    ensures Held(q) && Cleared(q)
  {
    hide Judged;
    forall x: Rid
      ensures Same(w, q, x)
    {
    }
    HeldAfter(w, q);
    forall x | Registered(q, x)
      ensures x.side !in Removed(q, x.r)
    {
      assert Registered(w, x);
    }
  }

  lemma StackHeld(w: Loop, ev: Event)
    requires Held(w) && Enabled(w, ev) && (ev.Create? || ev.Borrow? || ev.Enter? || ev.Return?)
    ensures Held(Next(w, ev))
  {
    var q := Next(w, ev);
    forall g | 0 <= g < |w.poll.table| && q.poll.table[g].reactor.Some?
      ensures Holds(q, q.poll.table[g].reactor.value, g)
    {
      assert Holds(w, w.poll.table[g].reactor.value, g);
    }
  }

  lemma StackKeeps(w: Loop, ev: Event)
    requires Inv(w) && Enabled(w, ev) && (ev.Create? || ev.Borrow? || ev.Enter? || ev.Return?)
    ensures Inv(Next(w, ev))
  {
    var q := Next(w, ev);
    StackHeld(w, ev);
    OwnedAfter(w, q);
    forall x | Registered(q, x)
      ensures x.side !in Removed(q, x.r)
    {
      assert Registered(w, x);
    }
  }

  /** An event always finds a reactor that is there and active. */
  lemma DeliverEffect(w: Loop, fd: Fd, file: File)
    requires Agrees(w.poll) && Held(w) && Enabled(w, Deliver(fd, file))
    ensures w.poll.table[fd].reactor.Some?
    ensures var r := w.poll.table[fd].reactor.value;
            && Holds(w, r, fd)
            && Next(w, Deliver(fd, file)) == Logged(w.(poll := Disarm(w.poll, fd, file), stack := [r]), r, Fired)
  {
    assert w.poll.kernel.open[fd] == file;
  }

  lemma DeliverHeld(w: Loop, q: Loop, r: Rid, fd: Fd, file: File)
    requires Held(w) && Holds(w, r, fd) && fd < |w.poll.table| && (fd, file) in w.poll.kernel.interest
    requires q == Logged(w.(poll := Disarm(w.poll, fd, file), stack := [r]), r, Fired)
    ensures Held(q)
  {
    LoggedLogs(w.(poll := Disarm(w.poll, fd, file), stack := [r]), r, Fired);
    forall g | 0 <= g < |w.poll.table| && q.poll.table[g].reactor.Some?
      ensures q.poll.table[g].reactor == w.poll.table[g].reactor && Same(w, q, q.poll.table[g].reactor.value)
    {
      assert Holds(w, w.poll.table[g].reactor.value, g);
      assert q.poll.table[g].reactor.value != r;
    }
    HeldAfter(w, q);
  }

  lemma DeliverCleared(w: Loop, q: Loop, r: Rid, fd: Fd, file: File)
    requires Cleared(w) && fd < |w.poll.table| && (fd, file) in w.poll.kernel.interest
    requires q == Logged(w.(poll := Disarm(w.poll, fd, file), stack := [r]), r, Fired)
    ensures Cleared(q)
  {
    LoggedLogs(w.(poll := Disarm(w.poll, fd, file), stack := [r]), r, Fired);
    hide Judged;
    forall e | Registered(q, e)
      ensures e.side !in Removed(q, e.r)
    {
      assert Registered(w, e);
    }
  }

  lemma DeliverKeeps(w: Loop, fd: Fd, file: File)
    requires Inv(w) && Enabled(w, Deliver(fd, file))
    ensures Inv(Next(w, Deliver(fd, file)))
    ensures w.poll.table[fd].reactor.Some? && Next(w, Deliver(fd, file)).stack == [w.poll.table[fd].reactor.value]
  {
    DeliverEffect(w, fd, file);
    DisarmAgrees(w.poll, fd, file);
    var r := w.poll.table[fd].reactor.value;
    var q := Next(w, Deliver(fd, file));
    hide Next, Agrees, Held, Cleared;
    DeliverHeld(w, q, r, fd, file);
    DeliverCleared(w, q, r, fd, file);
    OwnedAfter(w, q);
  }

  /** One more reference, to a reactor that had none. */
  lemma AddHeld(w: Loop, q: Loop, r: Rid, fd: Fd, side: Side, dir: Dir)
    requires Held(w) && r in w.active && w.active[r] && FdOf(w, r, side) == Some(fd) && fd < |w.poll.table|
    requires Waits(w, r).None?
    requires q == Logged(w.(poll := q.poll), r, Add(side, dir)) && q.poll.table == w.poll.table[fd := Entry(Some(r), true)]
    ensures Held(q)
  {
    LoggedLogs(w.(poll := q.poll), r, Add(side, dir));
    assert Holds(q, r, fd);
    forall g | 0 <= g < |w.poll.table| && q.poll.table[g].reactor.Some? && g != fd
      ensures q.poll.table[g].reactor == w.poll.table[g].reactor && Same(w, q, q.poll.table[g].reactor.value)
    {
      assert Holds(w, w.poll.table[g].reactor.value, g);
    }
    HeldAfter(w, q);
  }

  lemma AddCleared(w: Loop, q: Loop, r: Rid, fd: Fd, side: Side, dir: Dir)
    requires Cleared(w) && Owned(w) && FdOf(w, r, side) == Some(fd) && fd < |w.poll.table| && Possible(w, r, Add(side, dir))
    requires q == Logged(w.(poll := q.poll), r, Add(side, dir)) && q.poll.table == w.poll.table[fd := Entry(Some(r), true)]
    ensures Cleared(q)
  {
    LoggedLogs(w.(poll := q.poll), r, Add(side, dir));
    forall x | Registered(q, x)
      ensures x.side !in Removed(q, x.r)
    {
      if q.fds[x] == fd {
        assert x == if side.Raw? then w.raw[r] else End(r, side);
      } else {
        assert Registered(w, x);
      }
    }
  }

  /** Asking in vain: on a closed descriptor, or when inactive. */
  lemma VainAddKeeps(w: Loop, r: Rid, side: Side, dir: Dir)
    requires Inv(w) && Waits(w, r).None?
    ensures Inv(Logged(w, r, Add(side, dir)))
  {
    var q := Logged(w, r, Add(side, dir));
    LoggedLogs(w, r, Add(side, dir));
    hide Judged, Agrees;
    OwnedAfter(w, q);
    VainHeld(w, q, r);
    forall e | Registered(q, e) && e.r == r
      ensures e.side !in Removed(q, r)
    {
      assert Registered(w, e);
    }
    ClearedAfter(w, q, r);
  }

  lemma VainHeld(w: Loop, q: Loop, r: Rid)
    requires Held(w) && Waits(w, r).None? && q == w.(logs := q.logs) && (forall x :: x != r ==> LogOf(q, x) == LogOf(w, x))
    ensures Held(q)
  {
    hide Judged, LogOf;
    forall g | 0 <= g < |w.poll.table| && q.poll.table[g].reactor.Some?
      ensures Same(w, q, q.poll.table[g].reactor.value)
    {
      assert Holds(w, w.poll.table[g].reactor.value, g);
    }
    HeldAfter(w, q);
  }

  lemma AddKeeps(w: Loop, r: Rid, side: Side, dir: Dir)
    requires Inv(w) && Enabled(w, Do(r, Add(side, dir))) && Obeys(LogOf(w, r) + [Add(side, dir)])
    ensures Inv(Next(w, Do(r, Add(side, dir))))
  {
    var a := Add(side, dir);
    var q := Next(w, Do(r, a));
    JudgedNext(LogOf(w, r), a);
    var fd := FdOf(w, r, side);
    if fd.Some? && w.active[r] {
      AddAgrees(w.poll, r, fd.value, dir);
      assert q == Logged(w.(poll := Register(w.poll, r, fd.value, dir)), r, a);
      AddHeld(w, q, r, fd.value, side, dir);
      AddCleared(w, q, r, fd.value, side, dir);
      OwnedAfter(w, q);
    } else {
      VainAddKeeps(w, r, side, dir);
    }
  }

  /** References and registrations go, and nothing else about the others changes. */
  lemma FewerKeeps(w: Loop, q: Loop, r: Rid, a: Action)
    requires Inv(w) && q == Logged(w.(poll := q.poll, active := q.active), r, a) && Agrees(q.poll)
    requires |q.poll.table| == |w.poll.table| && q.active.Keys == w.active.Keys
    requires forall x :: x in w.active && x != r ==> q.active[x] == w.active[x]
    requires q.poll.kernel.open == w.poll.kernel.open && q.poll.kernel.halves == w.poll.kernel.halves
    requires forall g :: 0 <= g < |w.poll.table| ==> q.poll.table[g] == w.poll.table[g] || q.poll.table[g] == Entry(None, false)
    requires forall g :: 0 <= g < |w.poll.table| && q.poll.table[g].reactor == Some(r) ==> Holds(q, r, g)
    requires forall e :: Registered(q, e) && e.r == r ==> e.side !in Removed(q, r)
    ensures Inv(q)
  {
    hide Agrees, Judged;
    assert forall x :: x != r ==> LogOf(q, x) == LogOf(w, x);
    hide LogOf;
    OwnedAfter(w, q);
    FewerHeld(w, q, r);
    ClearedAfter(w, q, r);
  }

  lemma FewerHeld(w: Loop, q: Loop, r: Rid)
    requires Held(w) && |q.poll.table| == |w.poll.table| && q.fds == w.fds && q.raw == w.raw
    requires q.active.Keys == w.active.Keys && (forall x :: x in w.active && x != r ==> q.active[x] == w.active[x])
    requires forall x :: x != r ==> LogOf(q, x) == LogOf(w, x)
    requires forall g :: 0 <= g < |w.poll.table| ==> q.poll.table[g] == w.poll.table[g] || q.poll.table[g] == Entry(None, false)
    requires forall g :: 0 <= g < |w.poll.table| && q.poll.table[g].reactor == Some(r) ==> Holds(q, r, g)
    ensures Held(q)
  {
    hide LogOf, Judged;
    forall g | 0 <= g < |w.poll.table| && q.poll.table[g].reactor.Some? && q.poll.table[g].reactor != Some(r)
      ensures Same(w, q, q.poll.table[g].reactor.value)
    {
    }
    HeldAfter(w, q);
  }

  lemma RemoveRest(w: Loop, q: Loop, r: Rid, side: Side)
    requires Held(w) && Cleared(w) && !side.Raw? && q == Logged(w.(poll := q.poll), r, Remove(side))
    requires Emptied(w.poll, q.poll, Numbers(FdOf(w, r, side)))
    ensures forall g :: 0 <= g < |w.poll.table| && q.poll.table[g].reactor == Some(r) ==> Holds(q, r, g)
    ensures forall e :: Registered(q, e) && e.r == r ==> e.side !in Removed(q, r)
  {
    LoggedLogs(w.(poll := q.poll), r, Remove(side));
    hide Judged;
    forall g | 0 <= g < |w.poll.table| && q.poll.table[g].reactor == Some(r)
      ensures Holds(q, r, g)
    {
      assert Holds(w, r, g);
    }
    forall e | Registered(q, e) && e.r == r
      ensures e.side !in Removed(q, r)
    {
      assert Registered(w, e);
      assert FdOf(w, r, e.side) == Some(w.fds[e]) || e.side.Raw?;
    }
  }

  lemma RemoveKeeps(w: Loop, r: Rid, side: Side)
    requires Inv(w) && Enabled(w, Do(r, Remove(side)))
    ensures Inv(Next(w, Do(r, Remove(side))))
  {
    hide Unregister, Judged;
    var q := Next(w, Do(r, Remove(side)));
    assert q == Logged(w.(poll := Forget(w.poll, FdOf(w, r, side)), active := w.active), r, Remove(side));
    hide Next, Forget;
    OwnOpen(w, r, side);
    ForgetAgrees(w.poll, FdOf(w, r, side));
    RemoveRest(w, q, r, side);
    FewerKeeps(w, q, r, Remove(side));
  }

  lemma ResetEffect(w: Loop, r: Rid, side: Side)
    requires Inv(w) && Enabled(w, Do(r, Reset(side))) && Obeys(LogOf(w, r) + [Reset(side)]) && FdOf(w, r, side).Some?
    ensures var fd := w.fds[End(r, side)];
            && FdOf(w, r, side) == Some(fd) && fd in w.poll.kernel.open && !w.poll.table[fd].registered
            && Next(w, Do(r, Reset(side))) ==
                 Logged(w.(poll := w.poll.(kernel := CloseFd(w.poll.kernel, fd, side)), fds := w.fds - {End(r, side)}), r, Reset(side))
  {
    JudgedNext(LogOf(w, r), Reset(side));
    assert side in Removed(w, r) && !Registered(w, End(r, side));
  }

  lemma StillThere(w: Loop, q: Loop, e: End, x: Rid, side: Side, fd: Fd)
    requires FdOf(w, x, side) == Some(fd) && e in w.fds && fd != w.fds[e] && q.fds == w.fds - {e} && q.raw == w.raw
    ensures FdOf(q, x, side) == Some(fd)
  {
  }

  lemma ResetHeld(w: Loop, q: Loop, r: Rid, side: Side)
    requires Held(w) && End(r, side) in w.fds && w.fds[End(r, side)] < |w.poll.table|
    requires w.poll.table[w.fds[End(r, side)]].reactor.None?
    requires q == Logged(w.(poll := q.poll, fds := w.fds - {End(r, side)}), r, Reset(side)) && q.poll.table == w.poll.table
    ensures Held(q)
  {
    LoggedLogs(w.(poll := q.poll, fds := w.fds - {End(r, side)}), r, Reset(side));
    hide Judged, FdOf;
    forall g | 0 <= g < |w.poll.table| && q.poll.table[g].reactor.Some?
      ensures Holds(q, q.poll.table[g].reactor.value, g)
    {
      var x := w.poll.table[g].reactor.value;
      assert Holds(w, x, g);
      assert Waits(q, x) == Waits(w, x);
      StillThere(w, q, End(r, side), x, Waits(w, x).value, g);
    }
  }

  lemma ResetKeeps(w: Loop, r: Rid, side: Side)
    requires Inv(w) && Enabled(w, Do(r, Reset(side))) && Obeys(LogOf(w, r) + [Reset(side)])
    ensures Inv(Next(w, Do(r, Reset(side))))
  {
    var q := Next(w, Do(r, Reset(side)));
    if FdOf(w, r, side).Some? {
      ResetEffect(w, r, side);
      var fd := w.fds[End(r, side)];
      CloseAgrees(w.poll, fd, side);
      ResetHeld(w, q, r, side);
      DoOwned(w, r, Reset(side));
      LoggedLogs(w.(poll := q.poll, fds := w.fds - {End(r, side)}), r, Reset(side));
      forall x | Registered(q, x)
        ensures x.side !in Removed(q, x.r)
      {
        assert Registered(w, x);
      }
    } else {
      assert q == Logged(w.(poll := w.poll, active := w.active), r, Reset(side));
      NothingKeeps(w, r, Reset(side));
    }
  }

  /** An action on a descriptor that is not there. */
  lemma NothingKeeps(w: Loop, r: Rid, a: Action)
    requires Inv(w) && a.Reset?
    ensures Inv(Logged(w, r, a))
  {
    var q := Logged(w, r, a);
    LoggedLogs(w, r, a);
    forall g | 0 <= g < |w.poll.table| && q.poll.table[g].reactor == Some(r)
      ensures Holds(q, r, g)
    {
      assert Holds(w, r, g);
    }
    forall e | Registered(q, e) && e.r == r
      ensures e.side !in Removed(q, r)
    {
      assert Registered(w, e);
    }
    FewerKeeps(w, q, r, a);
  }

  /** From `p` to `q` exactly the entries of `gone` were emptied. */
  ghost predicate Emptied(p: Poll, q: Poll, gone: set<Fd>) {
    && q.kernel.open == p.kernel.open && q.kernel.halves == p.kernel.halves && |q.table| == |p.table|
    && (forall fd :: 0 <= fd < |p.table| ==> q.table[fd] == if fd in gone then Entry(None, false) else p.table[fd])
  }

  lemma EmptiedTwice(p: Poll, q: Poll, t: Poll, gone: set<Fd>, more: set<Fd>)
    requires Emptied(p, q, gone) && Emptied(q, t, more)
    ensures Emptied(p, t, gone + more)
  {
  }

  function Numbers(fd: Option<Fd>): set<Fd> { if fd.None? then {} else {fd.value} }

  lemma ForgetAgrees(p: Poll, fd: Option<Fd>)
    requires Agrees(p) && Numbers(fd) <= p.kernel.open.Keys
    ensures Agrees(Forget(p, fd)) && Emptied(p, Forget(p, fd), Numbers(fd))
  {
    if fd.Some? {
      RemoveAgrees(p, fd.value);
    }
  }

  lemma ForgetTwice(p: Poll, a: Option<Fd>, b: Option<Fd>)
    requires Agrees(p) && Numbers(a) + Numbers(b) <= p.kernel.open.Keys
    ensures Agrees(Forget(Forget(p, a), b)) && Emptied(p, Forget(Forget(p, a), b), Numbers(a) + Numbers(b))
  {
    hide Forget, Agrees;
    ForgetAgrees(p, a);
    ForgetAgrees(Forget(p, a), b);
    EmptiedTwice(p, Forget(p, a), Forget(Forget(p, a), b), Numbers(a), Numbers(b));
  }

  /** The numbers `deactivate` removes. */
  function OwnFds(w: Loop, r: Rid): set<Fd> {
    Numbers(FdOf(w, r, Src)) + Numbers(FdOf(w, r, Dst)) + Numbers(FdOf(w, r, Sock))
  }

  lemma OwnOpen(w: Loop, r: Rid, side: Side)
    requires Owned(w)
    ensures Numbers(FdOf(w, r, side)) <= w.poll.kernel.open.Keys
  {
  }

  lemma DeactivateAgrees(w: Loop, r: Rid)
    requires Agrees(w.poll) && Owned(w)
    ensures Agrees(Deactivated(w, r)) && Emptied(w.poll, Deactivated(w, r), OwnFds(w, r))
  {
    hide Forget, Agrees, Owned, FdOf, Numbers;
    var a, b, c := FdOf(w, r, Src), FdOf(w, r, Dst), FdOf(w, r, Sock);
    OwnOpen(w, r, Src);
    OwnOpen(w, r, Dst);
    OwnOpen(w, r, Sock);
    ForgetTwice(w.poll, a, b);
    var p := Forget(Forget(w.poll, a), b);
    ForgetAgrees(p, c);
    EmptiedTwice(w.poll, p, Forget(p, c), Numbers(a) + Numbers(b), Numbers(c));
  }

  lemma QuitRest(w: Loop, q: Loop, r: Rid)
    requires Held(w) && Owned(w) && Waits(w, r) != Some(Raw)
    requires q.fds == w.fds && Emptied(w.poll, q.poll, OwnFds(w, r))
    ensures forall g :: 0 <= g < |w.poll.table| ==> q.poll.table[g].reactor != Some(r)
    ensures forall e: End :: e.r == r ==> !Registered(q, e)
  {
    hide Judged;
    forall g | 0 <= g < |w.poll.table|
      ensures q.poll.table[g].reactor != Some(r)
    {
      if w.poll.table[g].reactor == Some(r) {
        assert Holds(w, r, g);
        assert g in OwnFds(w, r);
      }
    }
    forall e: End | e.r == r
      ensures !Registered(q, e)
    {
      if e in w.fds {
        assert FdOf(w, r, e.side) == Some(w.fds[e]);
        assert w.fds[e] in OwnFds(w, r);
      }
    }
  }

  lemma QuitKeeps(w: Loop, r: Rid)
    requires Inv(w) && Enabled(w, Do(r, Quit)) && Obeys(LogOf(w, r) + [Quit])
    ensures Inv(Next(w, Do(r, Quit)))
  {
    JudgedNext(LogOf(w, r), Quit);
    assert Waits(w, r) != Some(Raw);
    hide Deactivated, Judged;
    var q := Next(w, Do(r, Quit));
    assert q == Logged(w.(poll := Deactivated(w, r), active := w.active[r := false]), r, Quit);
    hide Next;
    DeactivateAgrees(w, r);
    QuitRest(w, q, r);
    FewerKeeps(w, q, r, Quit);
  }

  lemma DoKeeps(w: Loop, r: Rid, a: Action)
    requires Inv(w) && Enabled(w, Do(r, a)) && Obeys(LogOf(w, r) + [a])
    ensures Inv(Next(w, Do(r, a)))
  {
    match a
    case Add(side, dir) => AddKeeps(w, r, side, dir);
    case Remove(side) => RemoveKeeps(w, r, side);
    case Reset(side) => ResetKeeps(w, r, side);
    case Quit => QuitKeeps(w, r);
  }

  lemma OpensKeeps(w: Loop, ev: Event)
    requires Inv(w) && Enabled(w, ev) && (ev.NewSocket? || ev.Dup?)
    ensures Inv(Next(w, ev))
  {
    match ev
    case NewSocket(r, side, fd, file) =>
      OpenKeeps(w, End(r, side), fd, file, w.poll.kernel.halves[file := Halves(false, false)]);
    case Dup(r, side, from, fd) => OpenKeeps(w, End(r, side), fd, w.poll.kernel.open[w.fds[from]], w.poll.kernel.halves);
  }

  lemma NextKeeps(w: Loop, ev: Event)
    requires Inv(w) && LogsObey(Next(w, ev))
    ensures Inv(Next(w, ev))
  {
    hide Inv, Perform, Delivered, Opened;
    if Enabled(w, ev) {
      match ev
      case Deliver(fd, file) => DeliverKeeps(w, fd, file);
      case NewSocket(_, _, _, _) => OpensKeeps(w, ev);
      case Dup(_, _, _, _) => OpensKeeps(w, ev);
      case Do(r, a) =>
        PerformLogs(w, r, a);
        assert Next(w, ev).logs[r] == LogOf(w, r) + [a];
        DoKeeps(w, r, a);
      case _ => StackKeeps(w, ev);
    }
  }

  /** Logs only grow, so a reactor that has kept the discipline so far always had. */
  lemma NextGrows(w: Loop, ev: Event, r: Rid)
    ensures LogOf(w, r) <= LogOf(Next(w, ev), r)
  {
    if ev.Do? && Enabled(w, ev) {
      PerformLogs(w, ev.r, ev.act);
    }
    hide Perform, Disarm, Opened;
  }

  lemma PerformLogs(w: Loop, r: Rid, a: Action)
    requires r in w.active
    ensures Perform(w, r, a).logs == w.logs && Perform(w, r, a).stack == w.stack
  {
  }

  lemma {:induction false} RunGrows(w: Loop, evs: seq<Event>, r: Rid)
    ensures LogOf(w, r) <= LogOf(Run(w, evs), r)
    decreases |evs|
  {
    if evs == [] {
    } else {
      NextGrows(w, evs[0], r);
      RunGrows(Next(w, evs[0]), evs[1..], r);
    }
  }

  lemma EarlierObeys(w: Loop, evs: seq<Event>)
    requires LogsObey(Run(w, evs))
    ensures LogsObey(w)
  {
    forall r | r in w.logs
      ensures Obeys(w.logs[r])
    {
      RunGrows(w, evs, r);
      ObeysPrefix(LogOf(w, r), LogOf(Run(w, evs), r));
    }
  }

  lemma {:induction false} RunKeeps(w: Loop, evs: seq<Event>)
    requires Inv(w) && LogsObey(Run(w, evs))
    ensures Inv(Run(w, evs))
    decreases |evs|
  {
    if evs == [] {
    } else {
      EarlierObeys(Next(w, evs[0]), evs[1..]);
      NextKeeps(w, evs[0]);
      RunKeeps(Next(w, evs[0]), evs[1..]);
    }
  }

  lemma NewLoopInv(size: nat)
    ensures Inv(NewLoop(size))
  {
  }

  /** If every reactor keeps the discipline in its log, then in every reachable state, through
      every close, dup and reuse of a number, table and kernel agree: an entry is marked
      registered exactly when epoll watches that descriptor's present file, no watch outlives
      its descriptor, no descriptor was ever closed while registered, and no `epoll_ctl` ever
      met an entry it did not expect. */
  lemma TableAgreesWithKernel(size: nat, evs: seq<Event>)
    requires LogsObey(Run(NewLoop(size), evs))
    ensures var w := Run(NewLoop(size), evs);
            var p := w.poll;
            && !p.clash && !w.stale
            && (forall fd :: 0 <= fd < |p.table| ==>
                  (p.table[fd].registered <==> fd in p.kernel.open && (fd, p.kernel.open[fd]) in p.kernel.interest))
            && (forall key :: key in p.kernel.interest ==> key.0 in p.kernel.open && p.kernel.open[key.0] == key.1)
  {
    NewLoopInv(size);
    RunKeeps(NewLoop(size), evs);
  }

  predicate ArmedFd(w: Loop, fd: Fd) {
    Watched(w.poll.kernel, fd) && w.poll.kernel.interest[(fd, w.poll.kernel.open[fd])].armed
  }

  /** Dispatch safety: an armed descriptor is recorded for a reactor that is active and that
      means this descriptor, no reactor has two armed descriptors, and no event ever found a
      null or inactive reactor, so the loop is never left for that reason. */
  lemma DispatchSafety(size: nat, evs: seq<Event>)
    requires LogsObey(Run(NewLoop(size), evs))
    ensures var w := Run(NewLoop(size), evs);
            && !w.lost
            && (forall fd: Fd :: ArmedFd(w, fd) ==>
                  && fd < |w.poll.table| && w.poll.table[fd].reactor.Some?
                  && Holds(w, w.poll.table[fd].reactor.value, fd))
            && (forall f: Fd, g: Fd :: ArmedFd(w, f) && ArmedFd(w, g) && f != g ==>
                  w.poll.table[f].reactor != w.poll.table[g].reactor)
  {
    NewLoopInv(size);
    RunKeeps(NewLoop(size), evs);
  }

  lemma AddEffect(w: Loop, r: Rid, side: Side, dir: Dir, fd: Fd)
    requires Agrees(w.poll) && Owned(w) && r in w.active && w.active[r] && FdOf(w, r, side) == Some(fd) && !side.Raw?
    ensures var q := Next(w, Do(r, Add(side, dir)));
            && Agrees(q.poll) && q.fds == w.fds && q.active == w.active && q.poll.kernel.open == w.poll.kernel.open
            && q.poll.kernel.halves == w.poll.kernel.halves
            && fd < |w.poll.table| && q.poll.table == w.poll.table[fd := Entry(Some(r), true)]
  {
    hide Register, CloseFd, Forget, Deactivated, Lent;
    AddAgrees(w.poll, r, fd, dir);
    assert Perform(w, r, Add(side, dir)) == w.(poll := Register(w.poll, r, fd, dir));
    hide Perform;
  }

  lemma ArmedByTable(w: Loop, fd: Fd)
    requires Agrees(w.poll)
    ensures ArmedFd(w, fd) <==> fd < |w.poll.table| && w.poll.table[fd].reactor.Some?
  {
  }

  /** The discipline is needed: whoever asks on one descriptor and then on another is armed twice. */
  lemma AskingTwiceArmsTwice(w: Loop, r: Rid, dir: Dir, more: Dir)
    requires Inv(w) && r in w.active && w.active[r] && FdOf(w, r, Src).Some? && FdOf(w, r, Dst).Some?
    ensures var q := Next(Next(w, Do(r, Add(Src, dir))), Do(r, Add(Dst, more)));
            var f, g := FdOf(w, r, Src).value, FdOf(w, r, Dst).value;
            && f != g && ArmedFd(q, f) && ArmedFd(q, g) && f < |q.poll.table| && g < |q.poll.table|
            && q.poll.table[f].reactor == q.poll.table[g].reactor == Some(r)
  {
    var f, g := FdOf(w, r, Src).value, FdOf(w, r, Dst).value;
    hide Next, ArmedFd, Agrees;
    var mid := Next(w, Do(r, Add(Src, dir)));
    AddEffect(w, r, Src, dir, f);
    OwnedAfter(w, mid);
    AddEffect(mid, r, Dst, more, g);
    ArmedByTable(Next(mid, Do(r, Add(Dst, more))), f);
    ArmedByTable(Next(mid, Do(r, Add(Dst, more))), g);
  }

  // ----- half-close -----

  /** The file behind one of a reactor's sides. */
  function FileOf(w: Loop, r: Rid, side: Side): Option<File> {
    var fd := FdOf(w, r, side);
    if fd.Some? && fd.value in w.poll.kernel.open then Some(w.poll.kernel.open[fd.value]) else None
  }

  /** `ev` closes a descriptor of file `f` that is somebody's `side`. */
  predicate Shuts(w: Loop, ev: Event, f: File, side: Side) {
    ev.Do? && Enabled(w, ev) && ev.act == Reset(side) && FileOf(w, ev.r, side) == Some(f)
  }

  predicate Half(w: Loop, f: File, side: Side) {
    f in w.poll.kernel.halves && if side.Src? then w.poll.kernel.halves[f].readShut else w.poll.kernel.halves[f].writeShut
  }

  lemma ForgetSpares(p: Poll, fd: Option<Fd>)
    ensures Forget(p, fd).kernel.open == p.kernel.open && Forget(p, fd).kernel.halves == p.kernel.halves
  {
  }

  lemma DeactivatedSpares(w: Loop, r: Rid)
    ensures Deactivated(w, r).kernel.open == w.poll.kernel.open && Deactivated(w, r).kernel.halves == w.poll.kernel.halves
  {
    hide Unregister, FdOf, Forget;
    assert Deactivated(w, r) == Forget(Forget(Forget(w.poll, FdOf(w, r, Src)), FdOf(w, r, Dst)), FdOf(w, r, Sock));
    var p := Forget(w.poll, FdOf(w, r, Src));
    ForgetSpares(w.poll, FdOf(w, r, Src));
    ForgetSpares(p, FdOf(w, r, Dst));
    ForgetSpares(Forget(p, FdOf(w, r, Dst)), FdOf(w, r, Sock));
  }

  /** Only closing a descriptor changes which are open, and which halves are shut. */
  ghost predicate SameFiles(w: Loop, q: Loop) {
    && q.fds == w.fds && q.poll.kernel.open == w.poll.kernel.open && q.poll.kernel.halves == w.poll.kernel.halves
  }

  predicate Closes(w: Loop, r: Rid, a: Action) {
    a.Reset? && !a.side.Raw? && End(r, a.side) in w.fds && w.fds[End(r, a.side)] in w.poll.kernel.open
  }

  lemma RegisterSpares(p: Poll, r: Rid, fd: Fd, dir: Dir)
    ensures Register(p, r, fd, dir).kernel.open == p.kernel.open && Register(p, r, fd, dir).kernel.halves == p.kernel.halves
  {
  }

  lemma PerformFiles(w: Loop, r: Rid, a: Action)
    requires r in w.active && !Closes(w, r, a) && !(a.Reset? && a.side.Raw?)
    ensures SameFiles(w, Perform(w, r, a))
  {
    hide Deactivated, CloseFd, Register, Forget;
    match a
    case Quit => DeactivatedSpares(w, r);
    case Remove(side) => ForgetSpares(w.poll, FdOf(w, r, side));
    case Add(side, dir) =>
      if FdOf(w, r, side).Some? {
        RegisterSpares(w.poll, r, FdOf(w, r, side).value, dir);
      }
    case _ =>
  }

  lemma ActionFiles(w: Loop, r: Rid, a: Action)
    requires Enabled(w, Do(r, a)) && !Closes(w, r, a)
    ensures SameFiles(w, Next(w, Do(r, a)))
  {
    PerformFiles(w, r, a);
    hide Perform;
  }

  lemma CloseFiles(w: Loop, r: Rid, a: Action)
    requires Enabled(w, Do(r, a)) && Closes(w, r, a)
    ensures var q := Next(w, Do(r, a));
            var e := End(r, a.side);
            && q.fds == w.fds - {e} && q.raw == w.raw && q.active == w.active
            && q.poll.kernel.open == w.poll.kernel.open - {w.fds[e]}
            && q.poll.kernel.halves == Shut(w.poll.kernel, w.poll.kernel.open[w.fds[e]], a.side)
  {
  }

  /** Which half of which file one event shuts: the read half exactly of what it closes as a
      source, the write half exactly of what it closes as a destination. */
  lemma NextHalves(w: Loop, ev: Event, f: File, side: Side)
    requires f in w.poll.kernel.halves && (side.Src? || side.Dst?)
    ensures f in Next(w, ev).poll.kernel.halves
    ensures Half(Next(w, ev), f, side) <==> Half(w, f, side) || Shuts(w, ev, f, side)
  {
    if Enabled(w, ev) && ev.Do? {
      hide Next, Perform, CloseFd;
      if Closes(w, ev.r, ev.act) {
        CloseFiles(w, ev.r, ev.act);
      } else {
        ActionFiles(w, ev.r, ev.act);
      }
    }
  }

  predicate Opens(ev: Event, r: Rid) { (ev.NewSocket? || ev.Dup?) && ev.r == r }

  lemma CloseOwned(w: Loop, q: Loop, e: End)
    requires Owned(w) && e in w.fds && q.fds == w.fds - {e} && q.active == w.active
    requires q.poll.kernel.open == w.poll.kernel.open - {w.fds[e]} && w.poll.kernel.halves.Keys <= q.poll.kernel.halves.Keys
    ensures Owned(q)
  {
  }

  lemma DeliverFiles(w: Loop, fd: Fd, file: File)
    requires fd < |w.poll.table| && (fd, file) in w.poll.kernel.interest
    ensures SameFiles(w, Delivered(w, fd, file)) && Delivered(w, fd, file).active == w.active
  {
    DisarmFiles(w.poll, fd, file);
  }

  lemma DisarmFiles(p: Poll, fd: Fd, file: File)
    requires fd < |p.table| && (fd, file) in p.kernel.interest
    ensures Disarm(p, fd, file).kernel.open == p.kernel.open && Disarm(p, fd, file).kernel.halves == p.kernel.halves
  {
  }

  lemma OtherOwned(w: Loop, ev: Event)
    requires Owned(w) && Enabled(w, ev) && !ev.Do? && !ev.NewSocket? && !ev.Dup?
    ensures Owned(Next(w, ev))
  {
    if ev.Deliver? {
      DeliverFiles(w, ev.fd, ev.file);
      hide Delivered;
    }
    OwnedAfter(w, Next(w, ev));
  }

  /** Ownership needs no discipline. */
  lemma NextOwned(w: Loop, ev: Event)
    requires Owned(w)
    ensures Owned(Next(w, ev))
  {
    hide Owned, Perform, Delivered, Opened;
    if Enabled(w, ev) {
      match ev
      case Do(r, a) => DoOwned(w, r, a);
      case NewSocket(r, side, fd, file) =>
        OpenOwned(w, End(r, side), fd, file, w.poll.kernel.halves[file := Halves(false, false)]);
      case Dup(r, side, from, fd) => DupOwned(w, r, side, from, fd);
      case _ => OtherOwned(w, ev);
    }
  }

  lemma DupOwned(w: Loop, r: Rid, side: Side, from: End, fd: Fd)
    requires Owned(w) && Enabled(w, Dup(r, side, from, fd))
    ensures Owned(Opened(w, End(r, side), fd, w.poll.kernel.open[w.fds[from]], w.poll.kernel.halves))
  {
    OpenOwned(w, End(r, side), fd, w.poll.kernel.open[w.fds[from]], w.poll.kernel.halves);
  }

  lemma DoActive(w: Loop, r: Rid, a: Action)
    requires Enabled(w, Do(r, a))
    ensures Next(w, Do(r, a)).active.Keys == w.active.Keys && Next(w, Do(r, a)).raw == w.raw
  {
    hide Deactivated, CloseFd, Register, Forget;
  }

  lemma DoOwned(w: Loop, r: Rid, a: Action)
    requires Owned(w) && Enabled(w, Do(r, a))
    ensures Owned(Next(w, Do(r, a)))
  {
    hide Next, Perform, CloseFd;
    DoActive(w, r, a);
    if Closes(w, r, a) {
      CloseFiles(w, r, a);
      CloseOwned(w, Next(w, Do(r, a)), End(r, a.side));
    } else {
      ActionFiles(w, r, a);
      OwnedAfter(w, Next(w, Do(r, a)));
    }
  }

  lemma OpenFile(w: Loop, e: End, fd: Fd, file: File, halves: map<File, Halves>, r: Rid, side: Side)
    requires Owned(w) && Free(w, e.r, e.side, fd) && e.r != r && !side.Raw?
    ensures FileOf(Opened(w, e, fd, file, halves), r, side) == FileOf(w, r, side)
  {
  }

  lemma CloseFile(w: Loop, q: Loop, e: End, r: Rid, side: Side)
    requires Owned(w) && e in w.fds && q.fds == w.fds - {e} && !side.Raw?
    requires q.poll.kernel.open == w.poll.kernel.open - {w.fds[e]}
    ensures FileOf(q, r, side) == FileOf(w, r, side) || FileOf(q, r, side).None?
  {
  }

  lemma SameFile(w: Loop, q: Loop, r: Rid, side: Side)
    requires SameFiles(w, q) && !side.Raw?
    ensures FileOf(q, r, side) == FileOf(w, r, side)
  {
  }

  /** A descriptor keeps its file until it is closed. */
  lemma NextFile(w: Loop, ev: Event, r: Rid, side: Side)
    requires Owned(w) && !Opens(ev, r) && (side.Src? || side.Dst?)
    ensures FileOf(Next(w, ev), r, side) == FileOf(w, r, side) || FileOf(Next(w, ev), r, side).None?
  {
    hide Owned, Perform, Delivered, Opened, CloseFd, FileOf;
    var q := Next(w, ev);
    if Enabled(w, ev) {
      match ev
      case Do(x, a) =>
        if Closes(w, x, a) {
          CloseFiles(w, x, a);
          CloseFile(w, q, End(x, a.side), r, side);
        } else {
          ActionFiles(w, x, a);
          SameFile(w, q, r, side);
        }
      case NewSocket(x, s, fd, file) =>
        OpenFile(w, End(x, s), fd, file, w.poll.kernel.halves[file := Halves(false, false)], r, side);
      case Dup(x, s, from, fd) => OpenFile(w, End(x, s), fd, w.poll.kernel.open[w.fds[from]], w.poll.kernel.halves, r, side);
      case Deliver(fd, file) =>
        DeliverFiles(w, fd, file);
        SameFile(w, q, r, side);
      case _ => SameFile(w, q, r, side);
    }
  }

  function Opposite(side: Side): Side { if side.Src? then Dst else Src }

  /** Nobody but `r` closes a descriptor of `f` that is its `side`. */
  predicate OthersSpare(w: Loop, evs: seq<Event>, r: Rid, f: File, side: Side)
    decreases |evs|
  {
    evs == [] || ((Shuts(w, evs[0], f, side) ==> evs[0].r == r) && OthersSpare(Next(w, evs[0]), evs[1..], r, f, side))
  }

  /** Tearing a reactor down, or anything else it does, never disturbs the opposite direction: in
      any run, `r` never shuts the write half of the file it reads from nor the read half of the
      file it writes to, although those files are shared with the reactor that does. */
  lemma {:induction false} TeardownSparesOtherDirection(w: Loop, evs: seq<Event>, r: Rid, side: Side, f: File)
    requires Owned(w) && (side.Src? || side.Dst?) && f in w.poll.kernel.halves
    requires FileOf(w, r, Opposite(side)) != Some(f)
    requires forall i :: 0 <= i < |evs| ==> !Opens(evs[i], r)
    requires OthersSpare(w, evs, r, f, Opposite(side))
    ensures f in Run(w, evs).poll.kernel.halves
    ensures Half(Run(w, evs), f, Opposite(side)) <==> Half(w, f, Opposite(side))
    decreases |evs|
  {
    if evs == [] {
    } else {
      NextOwned(w, evs[0]);
      NextHalves(w, evs[0], f, Opposite(side));
      NextFile(w, evs[0], r, Opposite(side));
      TeardownSparesOtherDirection(Next(w, evs[0]), evs[1..], r, side, f);
    }
  }

  // ----- the poller and the loop as objects -----

  class Poller {
    var fdEntries: seq<Entry>
    var kernel: Kernel
    var clash: bool

    ghost function View(): Poll
      reads this
    {
      Poll(fdEntries, kernel, clash)
    }

    constructor (expectedFDs: nat)
      ensures View() == NewLoop(expectedFDs).poll
    {
      fdEntries := seq(expectedFDs, _ => Entry(None, false));
      kernel := Kernel(map[], map[], map[]);
      clash := false;
    }

    /** `active` is what `runIfActive` tests; a descriptor beyond the table is refused. */
    method Add(r: Rid, active: bool, fd: int, dir: Dir) returns (thrown: bool)
      modifies this
      ensures thrown <==> active && fd >= 0 && Refused(old(View()), fd)
      ensures View() == if active && fd >= 0 then Register(old(View()), r, fd, dir) else old(View())
    {
      if !active || fd < 0 {
        return false;
      }
      var f := fd as Fd;
      if f >= |fdEntries| || f !in kernel.open {
        clash := true;
        return true;
      }
      var watched := (f, kernel.open[f]) in kernel.interest;
      if fdEntries[f].registered != watched {
        clash := true;
        return true;
      }
      kernel := kernel.(interest := kernel.interest[(f, kernel.open[f]) := Watch(true, dir)]);
      fdEntries := fdEntries[f := Entry(Some(r), true)];
      thrown := false;
    }

    /** `force` goes to the kernel even for what the table does not know; the entry is cleared
        unless the kernel rejects the descriptor. */
    method Remove(fd: int, force: bool) returns (thrown: bool)
      requires fd < |fdEntries|
      modifies this
      ensures !force ==> View() == if fd < 0 then old(View()) else Unregister(old(View()), fd)
      ensures thrown <==> (force || (fd >= 0 && old(fdEntries)[fd].registered)) && (fd < 0 || fd !in old(kernel).open)
      ensures force && !thrown ==>
                View() == Poll(old(fdEntries)[fd := Entry(None, false)],
                               old(kernel).(interest := old(kernel).interest - {(fd as Fd, old(kernel).open[fd])}), old(clash))
    {
      if (fd < 0 || !fdEntries[fd].registered) && !force {
        return false;
      }
      if fd < 0 || fd !in kernel.open {
        clash := true;
        return true;
      }
      kernel := kernel.(interest := kernel.interest - {(fd as Fd, kernel.open[fd])});
      fdEntries := fdEntries[fd := Entry(None, false)];
      thrown := false;
    }

    /** What the loop does with an event before it runs the reactor. */
    method Take(fd: Fd, file: File) returns (who: Option<Rid>)
      requires fd < |fdEntries| && (fd, file) in kernel.interest
      modifies this
      ensures who == old(fdEntries)[fd].reactor && View() == Disarm(old(View()), fd, file)
    {
      kernel := kernel.(interest := kernel.interest[(fd, file) := kernel.interest[(fd, file)].(armed := false)]);
      who := fdEntries[fd].reactor;
      fdEntries := fdEntries[fd := fdEntries[fd].(reactor := None)];
    }
  }

  lemma SameNumbers(w: Loop, q: Loop, r: Rid)
    requires q.fds == w.fds && q.raw == w.raw
    ensures forall side :: FdOf(q, r, side) == FdOf(w, r, side)
  {
  }

  /** The loop around the poller: what the kernel and the reactors hold besides its table. */
  class EventLoop {
    const poller: Poller
    var fds: map<End, Fd>
    var raw: map<Rid, End>
    var active: map<Rid, bool>
    var stack: seq<Rid>
    var logs: map<Rid, seq<Action>>
    var lost: bool
    var stale: bool

    ghost function View(): Loop
      reads this, poller
    {
      Loop(poller.View(), fds, raw, active, stack, logs, lost, stale)
    }

    constructor (expectedFDs: nat)
      ensures View() == NewLoop(expectedFDs) && fresh(poller)
    {
      poller := new Poller(expectedFDs);
      fds, raw, active, stack, logs, lost, stale := map[], map[], map[], [], map[], false, false;
    }

    method Note(r: Rid, a: Action)
      modifies this`logs
      ensures View() == Logged(old(View()), r, a)
    {
      logs := logs[r := (if r in logs then logs[r] else []) + [a]];
    }

    /** One turn of `threadFun`, up to the call of `process`: what it runs is there, is active
        and has been waiting for this event. */
    method Dispatch(fd: Fd, file: File) returns (who: Rid)
      requires Inv(View()) && Enabled(View(), Deliver(fd, file))
      modifies this, poller
      ensures View() == Next(old(View()), Deliver(fd, file)) && Inv(View())
      ensures who in active && active[who] && stack == [who] && Holds(old(View()), who, fd)
    {
      ghost var before := View();
      DeliverEffect(before, fd, file);
      DeliverKeeps(before, fd, file);
      hide Inv, Next, Disarm, Judged;
      var found := poller.Take(fd, file);
      who := found.value;
      stack := [who];
      Note(who, Fired);
    }

    method NumberOf(r: Rid, side: Side) returns (fd: int)
      ensures fd == if FdOf(View(), r, side).Some? then FdOf(View(), r, side).value else -1
    {
      if side.Raw? {
        fd := if r in raw && raw[r] in fds then fds[raw[r]] else -1;
      } else {
        fd := if End(r, side) in fds then fds[End(r, side)] else -1;
      }
    }

    method Drop(r: Rid, side: Side)
      requires Agrees(poller.View()) && Numbers(FdOf(View(), r, side)) <= poller.kernel.open.Keys
      modifies poller
      ensures View() == old(View()).(poll := Forget(old(View()).poll, FdOf(old(View()), r, side)))
    {
      var fd := NumberOf(r, side);
      var thrown := poller.Remove(fd, false);
    }

    method AddTo(r: Rid, side: Side, dir: Dir)
      requires r in active
      modifies poller
      ensures View() == Perform(old(View()), r, Add(side, dir))
    {
      var fd := NumberOf(r, side);
      var thrown := poller.Add(r, active[r], fd, dir);
    }

    /** One action of a reactor. If its log keeps the discipline, nothing here can fail. */
    method Act(r: Rid, a: Action)
      requires Inv(View()) && Enabled(View(), Do(r, a)) && Obeys(LogOf(View(), r) + [a])
      modifies this, poller
      ensures View() == Next(old(View()), Do(r, a)) && Inv(View())
    {
      ghost var before := View();
      DoKeeps(before, r, a);
      match a {
        case Add(side, dir) => AddTo(r, side, dir);
        case Remove(side) =>
          OwnOpen(before, r, side);
          Drop(r, side);
        case Reset(side) => Close(r, side);
        case Quit => Deactivate(r);
      }
      assert View() == Perform(before, r, a);
      Note(r, a);
    }

    method Close(r: Rid, side: Side)
      requires Agrees(poller.View()) && Owned(View()) && r in active && !side.Raw?
      modifies this, poller
      ensures View() == Perform(old(View()), r, Reset(side))
    {
      hide CloseFd;
      var fd := NumberOf(r, side);
      if fd >= 0 {
        stale := stale || poller.fdEntries[fd].registered;
        poller.kernel := CloseFd(poller.kernel, fd, side);
        fds := fds - {End(r, side)};
      }
    }

    method Deactivate(r: Rid)
      requires Inv(View()) && r in active
      modifies this, poller
      ensures View() == Perform(old(View()), r, Quit)
    {
      ghost var before := View();
      OwnOpen(before, r, Src);
      OwnOpen(before, r, Dst);
      OwnOpen(before, r, Sock);
      hide Forget, FdOf, Owned, Held, Cleared, Agrees, Numbers;
      ForgetAgrees(before.poll, FdOf(before, r, Src));
      ForgetTwice(before.poll, FdOf(before, r, Src), FdOf(before, r, Dst));
      Drop(r, Src);
      assert FdOf(View(), r, Dst) == FdOf(before, r, Dst) by { SameNumbers(before, View(), r); }
      Drop(r, Dst);
      assert FdOf(View(), r, Sock) == FdOf(before, r, Sock) by { SameNumbers(before, View(), r); }
      Drop(r, Sock);
      active := active[r := false];
    }
  }
}
