/** A relay as one reactor among others in the event loop: its own steps, the deliveries that
    wake it and everything other reactors do to poller and kernel, in any order. */
module RelayLoops {
  import opened Wrappers
  import opened Logs
  import opened Codec
  import opened Buffers
  import opened Relays
  import opened Dispatcher
  import opened Discipline

  // ----- the relay as the loop sees it -----

  predicate OpenEnd(w: Loop, r: Rid, side: Side) { End(r, side) in w.fds }

  /** Poller and kernel hold exactly the event asked for, under the reactor's own descriptor. */
  predicate ArmedFor(w: Loop, r: Rid, side: Side, dir: Dir) {
    && End(r, side) in w.fds
    && var fd := w.fds[End(r, side)];
       && fd < |w.poll.table| && w.poll.table[fd].reactor == Some(r)
       && fd in w.poll.kernel.open && (fd, w.poll.kernel.open[fd]) in w.poll.kernel.interest
       && w.poll.kernel.interest[(fd, w.poll.kernel.open[fd])] == Watch(true, dir)
  }

  /** Reactor `r` of the loop is the relay `s`. */
  ghost predicate Mirrors(w: Loop, r: Rid, s: Relay) {
    && r in w.active && (w.active[r] <==> !s.ctl.Dead?)
    && (OpenEnd(w, r, Src) <==> s.srcOpen) && (OpenEnd(w, r, Dst) <==> s.dstOpen)
    && LogOf(w, r) == s.acts
    && (s.ctl.Armed? ==> ArmedFor(w, r, s.ctl.side, s.ctl.dir))
  }

  // ----- what others do leaves a descriptor alone -----

  predicate Spares(p: Poll, q: Poll, fd: Fd) {
    && |q.table| == |p.table| && (fd < |p.table| ==> q.table[fd] == p.table[fd])
    && (fd in p.kernel.open ==>
          && fd in q.kernel.open && q.kernel.open[fd] == p.kernel.open[fd]
          && var key := (fd, p.kernel.open[fd]);
             (key in p.kernel.interest ==> key in q.kernel.interest && q.kernel.interest[key] == p.kernel.interest[key]))
  }

  lemma RegisterSparesFd(p: Poll, r: Rid, other: Fd, dir: Dir, fd: Fd)
    requires other != fd
    ensures Spares(p, Register(p, r, other, dir), fd)
  {
  }

  lemma ForgetSparesFd(p: Poll, other: Option<Fd>, fd: Fd)
    requires other != Some(fd)
    ensures Spares(p, Forget(p, other), fd)
  {
  }

  lemma DisarmSparesFd(p: Poll, other: Fd, file: File, fd: Fd)
    requires other < |p.table| && (other, file) in p.kernel.interest && other != fd
    ensures Spares(p, Disarm(p, other, file), fd)
  {
  }

  lemma CloseSparesFd(p: Poll, other: Fd, side: Side, fd: Fd)
    requires other in p.kernel.open && other != fd
    ensures Spares(p, p.(kernel := CloseFd(p.kernel, other, side)), fd)
  {
    if fd in p.kernel.open && p.kernel.open[fd] == p.kernel.open[other] {
      assert fd in p.kernel.open - {other};
    }
  }

  lemma OpenSparesFd(p: Poll, other: Fd, file: File, halves: map<File, Halves>, fd: Fd)
    requires other != fd
    ensures Spares(p, p.(kernel := p.kernel.(open := p.kernel.open[other := file], halves := halves)), fd)
  {
  }

  lemma SparesTwice(p: Poll, q: Poll, t: Poll, fd: Fd)
    requires Spares(p, q, fd) && Spares(q, t, fd)
    ensures Spares(p, t, fd)
  {
  }

  lemma DeactivatedSparesFd(w: Loop, x: Rid, fd: Fd)
    requires FdOf(w, x, Src) != Some(fd) && FdOf(w, x, Dst) != Some(fd) && FdOf(w, x, Sock) != Some(fd)
    ensures Spares(w.poll, Deactivated(w, x), fd)
  {
    hide Forget, Spares, FdOf;
    var a, b, c := FdOf(w, x, Src), FdOf(w, x, Dst), FdOf(w, x, Sock);
    ForgetSparesFd(w.poll, a, fd);
    ForgetSparesFd(Forget(w.poll, a), b, fd);
    ForgetSparesFd(Forget(Forget(w.poll, a), b), c, fd);
    SparesTwice(w.poll, Forget(w.poll, a), Forget(Forget(w.poll, a), b), fd);
    SparesTwice(w.poll, Forget(Forget(w.poll, a), b), Deactivated(w, x), fd);
  }

  /** An event of someone else: not by `r`, not a delivery to `r`. */
  predicate Foreign(w: Loop, r: Rid, ev: Dispatcher.Event) {
    match ev
    case Create(x) => x != r
    case NewSocket(x, _, _, _) => x != r
    case Dup(x, _, _, _) => x != r
    case Deliver(fd, _) => fd < |w.poll.table| ==> w.poll.table[fd].reactor != Some(r)
    case Do(x, _) => x != r
    case _ => true
  }

  /** All that `r` can notice of a change: nothing. */
  ghost predicate Unnoticed(w: Loop, q: Loop, r: Rid) {
    && (r in w.active ==> r in q.active && q.active[r] == w.active[r])
    && LogOf(q, r) == LogOf(w, r)
    && (forall side :: OpenEnd(q, r, side) <==> OpenEnd(w, r, side))
    && (forall side :: OpenEnd(w, r, side) ==> q.fds[End(r, side)] == w.fds[End(r, side)])
  }

  lemma MirrorsFrame(w: Loop, q: Loop, r: Rid, s: Relay)
    requires Mirrors(w, r, s) && Unnoticed(w, q, r)
    requires s.ctl.Armed? ==> Spares(w.poll, q.poll, w.fds[End(r, s.ctl.side)])
    ensures Mirrors(q, r, s)
  {
    if s.ctl.Armed? {
      assert OpenEnd(q, r, s.ctl.side);
    }
  }

  /** No other reactor has this number: others own other descriptors, and a number is borrowed
      only until its owner first does something. */
  lemma NotTheirs(w: Loop, r: Rid, side: Side, x: Rid, a: Action)
    requires Owned(w) && OpenEnd(w, r, side) && x != r && LogOf(w, r) != [] && Possible(w, x, a)
    ensures (a.Add? || a.Remove? || a.Reset?) ==> FdOf(w, x, a.side) != Some(w.fds[End(r, side)])
    ensures forall own: Side :: !own.Raw? ==> FdOf(w, x, own) != Some(w.fds[End(r, side)])
  {
  }

  lemma PerformSparesFd(w: Loop, x: Rid, a: Action, fd: Fd)
    requires x in w.active && ((a.Add? || a.Remove? || a.Reset?) ==> FdOf(w, x, a.side) != Some(fd))
    requires forall own: Side :: !own.Raw? ==> FdOf(w, x, own) != Some(fd)
    ensures Spares(w.poll, Perform(w, x, a).poll, fd)
  {
    hide Register, Forget, Deactivated, CloseFd, Spares;
    match a
    case Add(side, dir) =>
      if FdOf(w, x, side).Some? {
        RegisterSparesFd(w.poll, x, FdOf(w, x, side).value, dir, fd);
      }
      Unchanged(w.poll, fd);
    case Remove(side) => ForgetSparesFd(w.poll, FdOf(w, x, side), fd);
    case Reset(side) =>
      if FdOf(w, x, side).Some? && FdOf(w, x, side).value in w.poll.kernel.open {
        CloseSparesFd(w.poll, FdOf(w, x, side).value, side, fd);
      }
      Unchanged(w.poll, fd);
    case Quit => DeactivatedSparesFd(w, x, fd);
    case Fired => Unchanged(w.poll, fd);
  }

  lemma Unchanged(p: Poll, fd: Fd)
    ensures Spares(p, p, fd)
  {
  }

  lemma DoUnnoticed(w: Loop, r: Rid, x: Rid, a: Action)
    requires x != r && Enabled(w, Do(x, a))
    ensures Unnoticed(w, Dispatcher.Next(w, Do(x, a)), r)
  {
    PerformUnnoticed(w, r, x, a);
    hide Perform;
  }

  lemma PerformUnnoticed(w: Loop, r: Rid, x: Rid, a: Action)
    requires x != r && x in w.active
    ensures Unnoticed(w, Perform(w, x, a), r)
  {
    hide Register, Forget, Deactivated, CloseFd, FdOf;
  }

  lemma DoForeign(w: Loop, r: Rid, s: Relay, x: Rid, a: Action)
    requires Dispatcher.Inv(w) && Mirrors(w, r, s) && Tidy(s) && Enabled(w, Do(x, a)) && x != r
    ensures Mirrors(Dispatcher.Next(w, Do(x, a)), r, s)
  {
    var q := Dispatcher.Next(w, Do(x, a));
    DoUnnoticed(w, r, x, a);
    assert q.poll == Perform(w, x, a).poll;
    hide Perform, Dispatcher.Next;
    if s.ctl.Armed? {
      assert s.acts != [];
      NotTheirs(w, r, s.ctl.side, x, a);
      PerformSparesFd(w, x, a, w.fds[End(r, s.ctl.side)]);
    }
    MirrorsFrame(w, q, r, s);
  }

  lemma OpenForeign(w: Loop, r: Rid, s: Relay, e: End, fd: Fd, file: File, halves: map<File, Halves>)
    requires Dispatcher.Inv(w) && Mirrors(w, r, s) && Free(w, e.r, e.side, fd) && e.r != r
    ensures Mirrors(Opened(w, e, fd, file, halves), r, s)
  {
    var q := Opened(w, e, fd, file, halves);
    if s.ctl.Armed? {
      OpenSparesFd(w.poll, fd, file, halves, w.fds[End(r, s.ctl.side)]);
    }
    hide Dispatcher.Inv;
    MirrorsFrame(w, q, r, s);
  }

  lemma DeliverForeign(w: Loop, r: Rid, s: Relay, fd: Fd, file: File)
    requires Dispatcher.Inv(w) && Mirrors(w, r, s) && Enabled(w, Deliver(fd, file)) && w.poll.table[fd].reactor != Some(r)
    ensures Mirrors(Dispatcher.Next(w, Deliver(fd, file)), r, s)
  {
    var q := Dispatcher.Next(w, Deliver(fd, file));
    DeliverEffect(w, fd, file);
    hide Dispatcher.Next;
    if s.ctl.Armed? {
      DisarmSparesFd(w.poll, fd, file, w.fds[End(r, s.ctl.side)]);
    }
    MirrorsFrame(w, q, r, s);
  }

  /** Whatever the other reactors do, the relay's descriptors, its entries and its log stay. */
  lemma ForeignKeepsMirror(w: Loop, r: Rid, s: Relay, ev: Dispatcher.Event)
    requires Dispatcher.Inv(w) && Mirrors(w, r, s) && Tidy(s) && Foreign(w, r, ev)
    ensures Mirrors(Dispatcher.Next(w, ev), r, s)
  {
    hide Perform, Delivered, Opened;
    if Enabled(w, ev) {
      match ev
      case Do(x, a) => DoForeign(w, r, s, x, a);
      case NewSocket(x, side, fd, file) =>
        OpenForeign(w, r, s, End(x, side), fd, file, w.poll.kernel.halves[file := Halves(false, false)]);
      case Dup(x, side, from, fd) =>
        OpenForeign(w, r, s, End(x, side), fd, w.poll.kernel.open[w.fds[from]], w.poll.kernel.halves);
      case Deliver(fd, file) => DeliverForeign(w, r, s, fd, file);
      case _ => MirrorsFrame(w, Dispatcher.Next(w, ev), r, s);
    }
  }

  // ----- what the relay does itself -----

  lemma Logging(w: Loop, r: Rid, a: Action)
    requires Enabled(w, Do(r, a))
    ensures LogOf(Dispatcher.Next(w, Do(r, a)), r) == LogOf(w, r) + [a]
  {
    PerformLogs(w, r, a);
    hide Perform;
  }

  /** `poller->add` on an open end. */
  lemma AddMirrors(w: Loop, r: Rid, s: Relay, side: Side, dir: Dir)
    requires Dispatcher.Inv(w) && Mirrors(w, r, s) && s.ctl.Running? && OpenEnd(w, r, side) && !side.Raw?
    ensures Mirrors(Dispatcher.Next(w, Do(r, Add(side, dir))), r, Settle(s, Armed(side, dir)))
  {
    var fd := w.fds[End(r, side)];
    Logging(w, r, Add(side, dir));
    AddEffect(w, r, side, dir, fd);
    AddWatch(w, r, side, dir);
    hide Dispatcher.Next, Agrees, Held, Cleared;
  }

  lemma AddWatch(w: Loop, r: Rid, side: Side, dir: Dir)
    requires Dispatcher.Inv(w) && r in w.active && w.active[r] && OpenEnd(w, r, side) && !side.Raw?
    ensures var q := Dispatcher.Next(w, Do(r, Add(side, dir)));
            ArmedFor(q, r, side, dir)
  {
    var fd := w.fds[End(r, side)];
    AddAgrees(w.poll, r, fd, dir);
    hide Agrees, Held, Cleared, Forget, Deactivated, CloseFd;
    assert Perform(w, r, Add(side, dir)) == w.(poll := Register(w.poll, r, fd, dir));
    hide Perform, Register;
  }

  /** `poller->add` on a closed end. */
  lemma VainAddMirrors(w: Loop, r: Rid, s: Relay, side: Side, dir: Dir)
    requires Dispatcher.Inv(w) && Mirrors(w, r, s) && s.ctl.Running? && !OpenEnd(w, r, side) && !side.Raw?
    ensures Mirrors(Dispatcher.Next(w, Do(r, Add(side, dir))), r, s.(ctl := Idle, acts := s.acts + [Add(side, dir)]))
  {
    Logging(w, r, Add(side, dir));
    hide Register, Forget, Deactivated, CloseFd;
    assert Perform(w, r, Add(side, dir)) == w;
    hide Perform;
  }

  lemma RemoveMirrors(w: Loop, r: Rid, s: Relay, side: Side)
    requires Mirrors(w, r, s) && !s.ctl.Armed? && !side.Raw?
    ensures Mirrors(Dispatcher.Next(w, Do(r, Remove(side))), r, s.(acts := s.acts + [Remove(side)]))
  {
    Logging(w, r, Remove(side));
    hide Register, Forget, Deactivated, CloseFd;
  }

  /** `reset` of one end. */
  function Without(s: Relay, side: Side): Relay {
    s.(srcOpen := s.srcOpen && !side.Src?, dstOpen := s.dstOpen && !side.Dst?, acts := s.acts + [Reset(side)])
  }

  lemma ResetMirrors(w: Loop, r: Rid, s: Relay, side: Side)
    requires Owned(w) && Mirrors(w, r, s) && !s.ctl.Armed? && (side.Src? || side.Dst?)
    ensures Mirrors(Dispatcher.Next(w, Do(r, Reset(side))), r, Without(s, side))
  {
    Logging(w, r, Reset(side));
    hide Register, Forget, Deactivated, CloseFd;
  }

  lemma QuitMirrors(w: Loop, r: Rid, s: Relay)
    requires Mirrors(w, r, s)
    ensures Mirrors(Dispatcher.Next(w, Do(r, Quit)), r, Settle(s, Dead))
  {
    Logging(w, r, Quit);
    hide Register, Forget, Deactivated, CloseFd;
  }

  /** The loop after `r` has done `acts`. */
  function Enact(w: Loop, r: Rid, acts: seq<Action>): Loop
    decreases |acts|
  {
    if acts == [] then w else Dispatcher.Next(Enact(w, r, acts[..|acts| - 1]), Do(r, acts[|acts| - 1]))
  }

  lemma {:induction false} EnactOn(w: Loop, r: Rid, acts: seq<Action>, more: seq<Action>)
    ensures Enact(w, r, acts + more) == Enact(Enact(w, r, acts), r, more)
    decreases |more|
  {
    hide Dispatcher.Next;
    if more == [] {
      assert acts + more == acts;
    } else {
      var n := |more| - 1;
      EnactOn(w, r, acts, more[..n]);
      assert (acts + more)[..|acts| + n] == acts + more[..n];
    }
  }

  lemma {:induction false} EnactOthers(w: Loop, r: Rid, acts: seq<Action>, x: Rid)
    requires x != r
    ensures LogOf(Enact(w, r, acts), x) == LogOf(w, x)
    decreases |acts|
  {
    hide Dispatcher.Next, LogOf;
    if acts != [] {
      var v := Enact(w, r, acts[..|acts| - 1]);
      EnactOthers(w, r, acts[..|acts| - 1], x);
      OthersLog(v, r, acts[|acts| - 1], x);
    }
  }

  lemma OthersLog(w: Loop, r: Rid, a: Action, x: Rid)
    requires x != r
    ensures LogOf(Dispatcher.Next(w, Do(r, a)), x) == LogOf(w, x)
  {
    if Enabled(w, Do(r, a)) {
      PerformLogs(w, r, a);
    }
    hide Perform;
  }

  /** The loop can follow the relay from `s` to `q` by carrying out what `q` has logged since. */
  ghost predicate Follows(w: Loop, r: Rid, s: Relay, q: Relay) {
    && s.acts <= q.acts
    && Dispatcher.Inv(Enact(w, r, q.acts[|s.acts|..]))
    && Mirrors(Enact(w, r, q.acts[|s.acts|..]), r, q)
  }

  lemma FollowsNothing(w: Loop, r: Rid, s: Relay, q: Relay)
    requires Dispatcher.Inv(w) && Mirrors(w, r, q) && q.acts == s.acts
    ensures Follows(w, r, s, q)
  {
    assert q.acts[|s.acts|..] == [];
  }

  lemma FollowsOne(w: Loop, r: Rid, s: Relay, a: Action, q: Relay)
    requires Dispatcher.Inv(w) && LogOf(w, r) == s.acts && q.acts == s.acts + [a] && Obeys(q.acts)
    requires Enabled(w, Do(r, a)) && Mirrors(Dispatcher.Next(w, Do(r, a)), r, q)
    ensures Follows(w, r, s, q)
  {
    hide Dispatcher.Inv, Mirrors, Dispatcher.Next, Enabled, Judged;
    Dispatcher.DoKeeps(w, r, a);
    assert q.acts[|s.acts|..] == [a];
    EnactOn(w, r, [], [a]);
    assert Enact(w, r, []) == w && [a][..0] == [];
    assert Enact(w, r, [a]) == Dispatcher.Next(w, Do(r, a));
  }

  lemma FollowsThen(w: Loop, r: Rid, s: Relay, m: Relay, q: Relay)
    requires Follows(w, r, s, m) && Follows(Enact(w, r, m.acts[|s.acts|..]), r, m, q)
    ensures Follows(w, r, s, q)
  {
    hide Dispatcher.Inv, Mirrors, Enact;
    EnactOn(w, r, m.acts[|s.acts|..], q.acts[|m.acts|..]);
    assert m.acts[|s.acts|..] + q.acts[|m.acts|..] == q.acts[|s.acts|..];
  }

  lemma SettleFollows(w: Loop, r: Rid, s: Relay, ctl: Ctl)
    requires Dispatcher.Inv(w) && Mirrors(w, r, s) && Tidy(s) && s.ctl.Running?
    requires ctl.Armed? ==> (ctl.side.Src? || ctl.side.Dst?) && OpenEnd(w, r, ctl.side)
    ensures Follows(w, r, s, Settle(s, ctl))
  {
    SettleOrderly(s, ctl);
    hide Dispatcher.Inv, Follows, Judged;
    match ctl
    case Armed(side, dir) =>
      AddMirrors(w, r, s, side, dir);
      FollowsOne(w, r, s, Add(side, dir), Settle(s, ctl));
    case Dead =>
      QuitMirrors(w, r, s);
      FollowsOne(w, r, s, Quit, Settle(s, ctl));
    case _ => FollowsNothing(w, r, s, Settle(s, ctl));
  }

  lemma AskSrcFollows(w: Loop, r: Rid, s: Relay)
    requires Dispatcher.Inv(w) && Mirrors(w, r, s) && Tidy(s) && s.ctl.Running?
    ensures Follows(w, r, s, AskSrc(s))
  {
    AskSrcOrderly(s);
    hide Dispatcher.Inv, Follows, Judged;
    if s.srcOpen {
      AddMirrors(w, r, s, Src, In);
    } else {
      VainAddMirrors(w, r, s, Src, In);
    }
    FollowsOne(w, r, s, Add(Src, In), AskSrc(s));
  }

  lemma RemoveFollows(w: Loop, r: Rid, s: Relay, side: Side)
    requires Dispatcher.Inv(w) && Mirrors(w, r, s) && Obeys(s.acts) && !s.ctl.Armed? && (side.Src? || side.Dst?)
    ensures Follows(w, r, s, s.(acts := s.acts + [Remove(side)]))
    ensures Obeys(s.acts + [Remove(side)]) && side in Judged(s.acts + [Remove(side)]).removed
  {
    JudgedNext(s.acts, Remove(side));
    RemoveMirrors(w, r, s, side);
    hide Judged, Dispatcher.Inv, Dispatcher.Next, Follows;
    FollowsOne(w, r, s, Remove(side), s.(acts := s.acts + [Remove(side)]));
  }

  lemma ResetFollows(w: Loop, r: Rid, s: Relay, side: Side)
    requires Dispatcher.Inv(w) && Mirrors(w, r, s) && Obeys(s.acts) && side in Judged(s.acts).removed
    requires !s.ctl.Armed? && (side.Src? || side.Dst?)
    ensures Follows(w, r, s, Without(s, side)) && Obeys(Without(s, side).acts)
  {
    JudgedNext(s.acts, Reset(side));
    ResetMirrors(w, r, s, side);
    hide Judged, Dispatcher.Inv, Dispatcher.Next, Follows;
    FollowsOne(w, r, s, Reset(side), Without(s, side));
  }

  /** `poller->remove` and `reset`. */
  lemma DropFollows(w: Loop, r: Rid, s: Relay, side: Side)
    requires Dispatcher.Inv(w) && Mirrors(w, r, s) && Obeys(s.acts) && !s.ctl.Armed? && (side.Src? || side.Dst?)
    ensures Follows(w, r, s, Without(s.(acts := s.acts + [Remove(side)]), side))
    ensures Obeys(Without(s.(acts := s.acts + [Remove(side)]), side).acts)
  {
    var m := s.(acts := s.acts + [Remove(side)]);
    hide Judged, Dispatcher.Inv, Mirrors, Enact, Without;
    RemoveFollows(w, r, s, side);
    ResetFollows(Enact(w, r, m.acts[|s.acts|..]), r, m, side);
    FollowsThen(w, r, s, m, Without(m, side));
  }

  lemma DropBothFollows(w: Loop, r: Rid, s: Relay)
    requires Dispatcher.Inv(w) && Mirrors(w, r, s) && Tidy(s) && s.ctl.Running?
    ensures Follows(w, r, s, DropBoth(s))
  {
    var m := DropSrc(s);
    hide Dispatcher.Inv, Enact, Judged;
    DropFollows(w, r, s, Src);
    assert Without(s.(acts := s.acts + [Remove(Src)]), Src) == m;
    var v := Enact(w, r, m.acts[|s.acts|..]);
    DropFollows(v, r, m, Dst);
    assert Without(m.(acts := m.acts + [Remove(Dst)]), Dst) == DropDst(m);
    FollowsThen(w, r, s, m, DropDst(m));
    assert DropBoth(s) == DropDst(m).(ctl := Idle);
  }

  lemma RecvFollows(w: Loop, r: Rid, s: Relay, o: RecvOutcome)
    requires Dispatcher.Inv(w) && Mirrors(w, r, s) && Tidy(s) && s.ctl.Running? && s.srcOpen
    ensures Follows(w, r, s, RecvStep(s, o))
  {
    hide Dispatcher.Inv, Judged, Enact;
    match SockRecv(s.buf, o)
    case Resched(dir) => SettleFollows(w, r, s, Armed(Src, dir));
    case Fault => SettleFollows(w, r, s, Dead);
    case Bytes(n, b) =>
      if n > 0 {
        FollowsNothing(w, r, s, RecvStep(s, o));
      } else if b.Used() == 0 {
        DropBothFollows(w, r, s.(buf := b));
      } else {
        var t := s.(buf := b, mode := Sending);
        DropFollows(w, r, t, Src);
        assert Without(t.(acts := t.acts + [Remove(Src)]), Src) == DropSrc(t);
      }
  }

  lemma SendFollows(w: Loop, r: Rid, s: Relay, o: SendOutcome)
    requires Dispatcher.Inv(w) && Mirrors(w, r, s) && Tidy(s) && s.ctl.Running? && s.dstOpen
    ensures Follows(w, r, s, SendStep(s, o))
  {
    hide Dispatcher.Inv, Judged, Enact;
    match SockSend(s.buf, o)
    case Resched(dir) => SettleFollows(w, r, s, Armed(Dst, dir));
    case Fault => SettleFollows(w, r, s, Dead);
    case Bytes(n, b) =>
      if n == 0 {
        DropBothFollows(w, r, s.(buf := b));
      } else if b.Used() == 0 {
        AskSrcFollows(w, r, s.(buf := b, mode := Receiving));
      } else {
        SettleFollows(w, r, s.(buf := b), Armed(Dst, Out));
      }
  }

  lemma StartFollows(w: Loop, r: Rid, s: Relay)
    requires Dispatcher.Inv(w) && Mirrors(w, r, s) && Tidy(s) && s.ctl.Running? && s.dstOpen
    ensures Follows(w, r, s, Start(s))
  {
    hide Dispatcher.Inv, Judged, Enact;
    if s.buf.Used() > 0 {
      SettleFollows(w, r, s.(mode := Sending), Armed(Dst, Out));
    } else {
      AskSrcFollows(w, r, s.(mode := Receiving));
    }
  }

  lemma DestroyedFollows(w: Loop, r: Rid, s: Relay)
    requires Dispatcher.Inv(w) && Mirrors(w, r, s) && Tidy(s) && !s.ctl.Armed?
    ensures Follows(w, r, s, Destroyed(s))
  {
    var a := s.(acts := s.acts + [Remove(Src)]);
    var b := a.(acts := a.acts + [Remove(Dst)]);
    var c := Without(b, Dst);
    JudgedNext(a.acts, Remove(Dst));
    JudgedNext(b.acts, Reset(Dst));
    hide Judged, Dispatcher.Inv, Mirrors, Enact;
    RemoveFollows(w, r, s, Src);
    RemoveFollows(Enact(w, r, a.acts[|s.acts|..]), r, a, Dst);
    FollowsThen(w, r, s, a, b);
    ResetFollows(Enact(w, r, b.acts[|s.acts|..]), r, b, Dst);
    FollowsThen(w, r, s, b, c);
    ResetFollows(Enact(w, r, c.acts[|s.acts|..]), r, c, Src);
    FollowsThen(w, r, s, c, Without(c, Src));
    assert Without(c, Src) == Destroyed(s);
  }

  // ----- creation -----

  /** A StreamReactor between its constructor and `start`. */
  function Ready(initial: Buf): Relay { Relay(Receiving, initial, true, true, Running, []) }

  /** `ev` gives `r` its end `side`, as a fresh socket or as a duplicate of somebody's. */
  predicate Gives(ev: Dispatcher.Event, r: Rid, side: Side) { (ev.NewSocket? || ev.Dup?) && ev.r == r && ev.side == side }

  /** The file behind the new end. */
  function GivenFile(w: Loop, ev: Dispatcher.Event): Option<File> {
    match ev
    case NewSocket(_, _, _, file) => Some(file)
    case Dup(_, _, from, _) => FileOf(w, from.r, from.side)
    case _ => None
  }

  lemma GivesEffect(w: Loop, ev: Dispatcher.Event, r: Rid, side: Side)
    requires Dispatcher.Inv(w) && Enabled(w, ev) && Gives(ev, r, side) && !side.Raw?
    ensures var q := Dispatcher.Next(w, ev);
            && Dispatcher.Inv(q) && q.active == w.active && q.logs == w.logs
            && q.fds == w.fds[End(r, side) := ev.fd]
            && GivenFile(w, ev).Some? && q.poll.kernel.open == w.poll.kernel.open[ev.fd := GivenFile(w, ev).value]
  {
    OpensKeeps(w, ev);
    if ev.Dup? {
      assert !ev.from.side.Raw?;
      assert GivenFile(w, ev) == Some(w.poll.kernel.open[w.fds[ev.from]]);
    }
    hide Dispatcher.Inv;
  }

  /** A new relay is ready to be started, whether its ends are fresh sockets or duplicates of
      another reactor's (ConnectProxyDownstreamer and ProxifierDownstreamer have two of those):
      it reads from the one file through its `Src` and writes to the other through its `Dst`. */
  lemma CreatedIsReady(w: Loop, r: Rid, first: Dispatcher.Event, second: Dispatcher.Event, initial: Buf)
    requires Dispatcher.Inv(w) && r !in w.active && r !in w.logs
    requires Gives(first, r, Src) && Gives(second, r, Dst)
    requires var born := Dispatcher.Next(w, Create(r));
             Enabled(born, first) && Enabled(Dispatcher.Next(born, first), second)
    ensures var born := Dispatcher.Next(w, Create(r));
            var half := Dispatcher.Next(born, first);
            var q := Dispatcher.Next(half, second);
            && Dispatcher.Inv(q) && Mirrors(q, r, Ready(initial))
            && FileOf(q, r, Src) == GivenFile(born, first) && FileOf(q, r, Dst) == GivenFile(half, second)
            && GivenFile(born, first).Some? && GivenFile(half, second).Some?
  {
    var born := Dispatcher.Next(w, Create(r));
    assert born == w.(active := w.active[r := true]);
    StackKeeps(w, Create(r));
    hide Dispatcher.Next, Dispatcher.Inv, GivenFile;
    var half := Dispatcher.Next(born, first);
    GivesEffect(born, first, r, Src);
    var q := Dispatcher.Next(half, second);
    GivesEffect(half, second, r, Dst);
    assert second.fd !in half.poll.kernel.open;
    hide Enabled;
    BothGiven(born, q, r, first.fd, GivenFile(born, first).value, second.fd, GivenFile(half, second).value, initial);
  }

  lemma BothGiven(w: Loop, q: Loop, r: Rid, a: Fd, f: File, b: Fd, g: File, initial: Buf)
    requires r in w.active && w.active[r] && LogOf(w, r) == [] && q.active == w.active && q.logs == w.logs && a != b
    requires q.fds == w.fds[End(r, Src) := a][End(r, Dst) := b] && q.poll.kernel.open == w.poll.kernel.open[a := f][b := g]
    ensures Mirrors(q, r, Ready(initial)) && FileOf(q, r, Src) == Some(f) && FileOf(q, r, Dst) == Some(g)
  {
  }

  // ----- joint runs -----

  /** The loop, and the relay with all it has received and delivered. */
  datatype Joint = Joint(w: Loop, h: History)

  /** A system call or a deactivation or destruction of the relay, the delivery of its event, or
      anything any other reactor does. */
  datatype Step = Own(e: Relays.Event) | Awaken(fd: Fd, file: File) | Elsewhere(ev: Dispatcher.Event)

  function Since(acts: seq<Action>, more: seq<Action>): seq<Action> {
    if |acts| <= |more| then more[|acts|..] else []
  }

  function JointNext(r: Rid, j: Joint, step: Step): Joint {
    match step
    case Own(e) =>
      if e.Wakeup? then j
      else Joint(Enact(j.w, r, Since(j.h.relay.acts, Relays.Next(j.h, e).relay.acts)), Relays.Next(j.h, e))
    case Awaken(fd, file) =>
      if Enabled(j.w, Deliver(fd, file)) && j.w.poll.table[fd].reactor == Some(r)
      then Joint(Dispatcher.Next(j.w, Deliver(fd, file)), Relays.Next(j.h, Wakeup))
      else j
    case Elsewhere(ev) => if Foreign(j.w, r, ev) then j.(w := Dispatcher.Next(j.w, ev)) else j
  }

  function JointRun(r: Rid, j: Joint, steps: seq<Step>): Joint
    decreases |steps|
  {
    if steps == [] then j else JointRun(r, JointNext(r, j, steps[0]), steps[1..])
  }

  /** The only way to return without an event due is to have asked on a source that is closed. */
  ghost predicate Quiet(s: Relay) {
    s.ctl.Idle? && Judged(s.acts).armed.Some? ==> Judged(s.acts).armed == Some(Src) && !s.srcOpen
  }

  ghost predicate JointInv(r: Rid, j: Joint, initial: seq<byte>) {
    && Dispatcher.Inv(j.w) && Mirrors(j.w, r, j.h.relay)
    && Tidy(j.h.relay) && Quiet(j.h.relay) && HistoryInv(j.h, initial)
  }

  lemma DropBothQuiet(s: Relay)
    requires Tidy(s) && s.ctl.Running?
    ensures Quiet(DropBoth(s))
  {
    var m := DropSrc(s);
    DropSrcOrderly(s);
    JudgedNext(m.acts, Remove(Dst));
    JudgedNext(m.acts + [Remove(Dst)], Reset(Dst));
    hide Judged;
  }

  lemma RecvQuiet(s: Relay, o: RecvOutcome)
    requires Tidy(s) && s.ctl.Running?
    ensures Quiet(RecvStep(s, o))
  {
    hide Judged, DropBoth, Kept;
    if SockRecv(s.buf, o).Bytes? {
      DropBothQuiet(s.(buf := SockRecv(s.buf, o).buf));
    }
  }

  lemma AskSrcQuiet(s: Relay)
    requires Tidy(s) && s.ctl.Running?
    ensures Quiet(AskSrc(s))
  {
    JudgedNext(s.acts, Add(Src, In));
  }

  lemma SendQuiet(s: Relay, o: SendOutcome)
    requires Tidy(s) && s.ctl.Running?
    ensures Quiet(SendStep(s, o))
  {
    hide Judged, DropBoth, AskSrc, Kept;
    match SockSend(s.buf, o)
    case Bytes(n, b) =>
      if n == 0 {
        DropBothQuiet(s.(buf := b));
      } else if b.Used() == 0 {
        AskSrcQuiet(s.(buf := b, mode := Receiving));
      }
    case _ =>
  }

  lemma DestroyedQuiet(s: Relay)
    requires Tidy(s) && Quiet(s)
    ensures Quiet(Destroyed(s))
  {
    TeardownObeys(s.acts);
    hide Judged;
  }

  lemma OwnKeeps(r: Rid, j: Joint, e: Relays.Event, initial: seq<byte>)
    requires JointInv(r, j, initial) && !e.Wakeup?
    ensures JointInv(r, JointNext(r, j, Own(e)), initial)
  {
    var s := j.h.relay;
    var q := Relays.Next(j.h, e).relay;
    Relays.NextKeeps(j.h, e, initial);
    hide Judged, Dispatcher.Inv, Mirrors, Enact, HistoryInv, RecvStep, SendStep, Destroyed, Settle;
    assert Relays.Inv(s) by { OwnInv(j.h, initial); }
    assert Follows(j.w, r, s, q) && Tidy(q) && Quiet(q) by {
      OwnFollows(j.w, r, j.h, e);
    }
    assert Since(s.acts, q.acts) == q.acts[|s.acts|..];
  }

  lemma OwnInv(h: History, initial: seq<byte>)
    requires HistoryInv(h, initial)
    ensures Relays.Inv(h.relay)
  {
  }

  lemma OwnFollows(w: Loop, r: Rid, h: History, e: Relays.Event)
    requires Dispatcher.Inv(w) && Mirrors(w, r, h.relay) && Tidy(h.relay) && Quiet(h.relay) && Relays.Inv(h.relay)
    requires !e.Wakeup?
    ensures var q := Relays.Next(h, e).relay; Follows(w, r, h.relay, q) && Tidy(q) && Quiet(q)
  {
    var s := h.relay;
    hide Judged, Dispatcher.Inv, Mirrors, Enact, RecvStep, SendStep, Destroyed, Follows;
    match e
    case Recv(o) =>
      if s.ctl.Running? && s.mode.Receiving? {
        RecvFollows(w, r, s, o);
        RecvOrderly(s, o);
        RecvQuiet(s, o);
      } else {
        FollowsNothing(w, r, s, s);
      }
    case Send(o) =>
      if s.ctl.Running? && s.mode.Sending? {
        SendFollows(w, r, s, o);
        SendOrderly(s, o);
        SendQuiet(s, o);
      } else {
        FollowsNothing(w, r, s, s);
      }
    case Killed =>
      KilledFollows(w, r, s);
      QuitTidy(s);
    case Gone =>
      if s.ctl.Running? || s.ctl.Armed? {
        FollowsNothing(w, r, s, s);
      } else {
        DestroyedFollows(w, r, s);
        DestroyedTidy(s);
        DestroyedQuiet(s);
      }
  }

  lemma KilledFollows(w: Loop, r: Rid, s: Relay)
    requires Dispatcher.Inv(w) && Mirrors(w, r, s) && Tidy(s)
    ensures Follows(w, r, s, Settle(s, Dead))
  {
    QuitMirrors(w, r, s);
    QuitTidy(s);
    hide Judged, Dispatcher.Inv, Follows;
    FollowsOne(w, r, s, Quit, Settle(s, Dead));
  }

  /** A delivered event finds the relay waiting for it. */
  lemma AwakenFinds(w: Loop, r: Rid, s: Relay, fd: Fd, file: File)
    requires Dispatcher.Inv(w) && Mirrors(w, r, s) && Tidy(s) && Quiet(s)
    requires Enabled(w, Deliver(fd, file)) && w.poll.table[fd].reactor == Some(r)
    ensures s.ctl.Armed?
  {
    hide Judged;
    assert Holds(w, r, fd);
  }

  lemma AwakenKeeps(r: Rid, j: Joint, fd: Fd, file: File, initial: seq<byte>)
    requires JointInv(r, j, initial) && Enabled(j.w, Deliver(fd, file)) && j.w.poll.table[fd].reactor == Some(r)
    ensures JointInv(r, JointNext(r, j, Awaken(fd, file)), initial)
  {
    var s := j.h.relay;
    AwakenFinds(j.w, r, s, fd, file);
    Relays.NextKeeps(j.h, Wakeup, initial);
    WakeTidy(s);
    DeliverKeeps(j.w, fd, file);
    AwakenMirrors(j.w, r, s, fd, file);
    hide Judged, Dispatcher.Next, Dispatcher.Inv, Mirrors, Kept;
  }

  lemma AwakenMirrors(w: Loop, r: Rid, s: Relay, fd: Fd, file: File)
    requires Dispatcher.Inv(w) && Mirrors(w, r, s) && s.ctl.Armed?
    requires Enabled(w, Deliver(fd, file)) && w.poll.table[fd].reactor == Some(r)
    ensures Mirrors(Dispatcher.Next(w, Deliver(fd, file)), r, Wake(s))
  {
    DeliverEffect(w, fd, file);
    hide Dispatcher.Next, Disarm;
  }

  ghost predicate OthersObey(w: Loop, r: Rid) { forall x :: x in w.logs && x != r ==> Obeys(w.logs[x]) }

  lemma ElsewhereKeeps(r: Rid, j: Joint, ev: Dispatcher.Event, initial: seq<byte>)
    requires JointInv(r, j, initial) && Foreign(j.w, r, ev) && OthersObey(Dispatcher.Next(j.w, ev), r)
    ensures JointInv(r, JointNext(r, j, Elsewhere(ev)), initial)
  {
    var q := Dispatcher.Next(j.w, ev);
    ForeignKeepsMirror(j.w, r, j.h.relay, ev);
    hide Judged, Dispatcher.Next, Dispatcher.Inv, HistoryInv;
    assert LogsObey(q) by {
      assert r in q.logs ==> q.logs[r] == LogOf(q, r) == j.h.relay.acts;
    }
    Dispatcher.NextKeeps(j.w, ev);
  }

  lemma JointGrows(r: Rid, j: Joint, step: Step, x: Rid)
    requires x != r
    ensures LogOf(j.w, x) <= LogOf(JointNext(r, j, step).w, x)
  {
    hide Dispatcher.Next, LogOf, Enact;
    match step
    case Own(e) =>
      if !e.Wakeup? {
        EnactOthers(j.w, r, Since(j.h.relay.acts, Relays.Next(j.h, e).relay.acts), x);
      }
    case Awaken(fd, file) => NextGrows(j.w, Deliver(fd, file), x);
    case Elsewhere(ev) => NextGrows(j.w, ev, x);
  }

  lemma {:induction false} JointRunGrows(r: Rid, j: Joint, steps: seq<Step>, x: Rid)
    requires x != r
    ensures LogOf(j.w, x) <= LogOf(JointRun(r, j, steps).w, x)
    decreases |steps|
  {
    hide JointNext;
    if steps != [] {
      JointGrows(r, j, steps[0], x);
      JointRunGrows(r, JointNext(r, j, steps[0]), steps[1..], x);
    }
  }

  lemma EarlierOthersObey(r: Rid, j: Joint, steps: seq<Step>)
    requires OthersObey(JointRun(r, j, steps).w, r)
    ensures OthersObey(j.w, r)
  {
    forall x | x in j.w.logs && x != r
      ensures Obeys(j.w.logs[x])
    {
      JointRunGrows(r, j, steps, x);
      ObeysPrefix(LogOf(j.w, x), LogOf(JointRun(r, j, steps).w, x));
    }
  }

  lemma JointKeeps(r: Rid, j: Joint, step: Step, initial: seq<byte>)
    requires JointInv(r, j, initial) && OthersObey(JointNext(r, j, step).w, r)
    ensures JointInv(r, JointNext(r, j, step), initial)
    ensures Woken(j.h.relay) && (step.Own? ==> Plain(step.e)) ==> Woken(JointNext(r, j, step).h.relay)
  {
    hide JointInv, Foreign, Dispatcher.Next, Enact;
    JointWoken(r, j, step, initial);
    match step
    case Own(e) =>
      if !e.Wakeup? {
        OwnKeeps(r, j, e, initial);
      }
    case Awaken(fd, file) =>
      if Enabled(j.w, Deliver(fd, file)) && j.w.poll.table[fd].reactor == Some(r) {
        AwakenKeeps(r, j, fd, file, initial);
      }
    case Elsewhere(ev) =>
      if Foreign(j.w, r, ev) {
        ElsewhereKeeps(r, j, ev, initial);
      }
  }

  lemma JointWoken(r: Rid, j: Joint, step: Step, initial: seq<byte>)
    requires JointInv(r, j, initial)
    ensures Woken(j.h.relay) && (step.Own? ==> Plain(step.e)) ==> Woken(JointNext(r, j, step).h.relay)
  {
    hide Dispatcher.Inv, Mirrors, Tidy, Quiet, Foreign, Enabled, Dispatcher.Next, Enact;
    match step
    case Own(e) => Relays.NextKeeps(j.h, e, initial);
    case Awaken(_, _) => Relays.NextKeeps(j.h, Wakeup, initial);
    case _ =>
  }

  lemma {:induction false} JointRunKeeps(r: Rid, j: Joint, steps: seq<Step>, initial: seq<byte>)
    requires JointInv(r, j, initial) && OthersObey(JointRun(r, j, steps).w, r)
    ensures JointInv(r, JointRun(r, j, steps), initial)
    ensures Woken(j.h.relay) && (forall i :: 0 <= i < |steps| && steps[i].Own? ==> Plain(steps[i].e)) ==>
              Woken(JointRun(r, j, steps).h.relay)
    decreases |steps|
  {
    hide JointNext, JointInv, OthersObey, Woken, Plain;
    if steps != [] {
      EarlierOthersObey(r, JointNext(r, j, steps[0]), steps[1..]);
      JointKeeps(r, j, steps[0], initial);
      JointRunKeeps(r, JointNext(r, j, steps[0]), steps[1..], initial);
    }
  }

  /** The joint state right after `start`. */
  function Started(w: Loop, r: Rid, initial: Buf): Joint {
    Joint(Enact(w, r, Since([], Start(Ready(initial)).acts)), Fresh(initial, true))
  }

  lemma StartedKeeps(w: Loop, r: Rid, initial: Buf)
    requires Dispatcher.Inv(w) && Mirrors(w, r, Ready(initial))
    requires initial.Valid() && (initial.data == [] ==> initial == EMPTY_BUF)
    ensures JointInv(r, Started(w, r, initial), initial.data) && Woken(Started(w, r, initial).h.relay)
  {
    FreshHistory(initial);
    hide Dispatcher.Inv, Mirrors, Enact, Tidy, Quiet, HistoryInv, Woken, Start;
    StartFollows(w, r, Ready(initial));
    StartOrderly(Ready(initial));
    assert Start(Ready(initial)).acts[|Ready(initial).acts|..] == Since([], Start(Ready(initial)).acts);
  }

  lemma FreshHistory(initial: Buf)
    requires initial.Valid() && (initial.data == [] ==> initial == EMPTY_BUF)
    ensures HistoryInv(Fresh(initial, true), initial.data) && Woken(Fresh(initial, true).relay)
    ensures Tidy(Ready(initial)) && Quiet(Fresh(initial, true).relay)
  {
  }

  /** No relay is ever left waiting for the wrong event, or for none, among any number of other
      reactors that keep the discipline: in every joint run a plain TCP relay that is alive, has
      both ends open and is not being run is armed in the kernel, and recorded in the table, for
      input on its source exactly when its buffer is empty and for output on its destination
      exactly when it is not; and it has passed on all it received. */
  lemma RelayNeverStranded(w: Loop, r: Rid, initial: Buf, steps: seq<Step>)
    requires Dispatcher.Inv(w) && Mirrors(w, r, Ready(initial))
    requires initial.Valid() && (initial.data == [] ==> initial == EMPTY_BUF)
    requires forall i :: 0 <= i < |steps| && steps[i].Own? ==> Plain(steps[i].e)
    requires OthersObey(JointRun(r, Started(w, r, initial), steps).w, r)
    ensures var j := JointRun(r, Started(w, r, initial), steps);
            var s := j.h.relay;
            && Dispatcher.Inv(j.w) && Mirrors(j.w, r, s)
            && j.h.delivered + s.buf.data == initial.data + j.h.received
            && (!s.ctl.Running? && !s.ctl.Dead? && s.srcOpen && s.dstOpen ==>
                  if s.buf.Used() == 0 then ArmedFor(j.w, r, Src, In) else ArmedFor(j.w, r, Dst, Out))
  {
    StartedKeeps(w, r, initial);
    JointRunKeeps(r, Started(w, r, initial), steps, initial.data);
    hide JointRun, Started, JointInv;
    NotStranded(r, JointRun(r, Started(w, r, initial), steps), initial.data);
  }

  lemma NotStranded(r: Rid, j: Joint, initial: seq<byte>)
    requires JointInv(r, j, initial) && Woken(j.h.relay)
    ensures var s := j.h.relay;
            && Dispatcher.Inv(j.w) && Mirrors(j.w, r, s)
            && j.h.delivered + s.buf.data == initial + j.h.received
            && (!s.ctl.Running? && !s.ctl.Dead? && s.srcOpen && s.dstOpen ==>
                  if s.buf.Used() == 0 then ArmedFor(j.w, r, Src, In) else ArmedFor(j.w, r, Dst, Out))
  {
    hide Dispatcher.Inv, Tidy, Quiet, ArmedFor;
  }

  // ----- half-close -----

  /** `f` is not what `r` closes as its `side`, and that half of it stands as it did. */
  ghost predicate Spared(w: Loop, q: Loop, r: Rid, f: File, side: Side) {
    && Owned(q) && f in q.poll.kernel.halves && FileOf(q, r, side) != Some(f)
    && (Half(q, f, side) <==> Half(w, f, side))
  }

  lemma NextSpared(w: Loop, ev: Dispatcher.Event, r: Rid, f: File, side: Side)
    requires Spared(w, w, r, f, side) && !Opens(ev, r) && (side.Src? || side.Dst?) && !Shuts(w, ev, f, side)
    ensures Spared(w, Dispatcher.Next(w, ev), r, f, side)
  {
    hide Dispatcher.Next, Owned, FileOf, Half, Shuts;
    NextOwned(w, ev);
    NextHalves(w, ev, f, side);
    NextFile(w, ev, r, side);
  }

  /** Whatever a reactor does to its own descriptors. */
  lemma {:induction false} EnactSpared(w: Loop, r: Rid, acts: seq<Action>, f: File, side: Side)
    requires Spared(w, w, r, f, side) && (side.Src? || side.Dst?)
    ensures Spared(w, Enact(w, r, acts), r, f, side)
    decreases |acts|
  {
    if acts != [] {
      var n := |acts| - 1;
      EnactSpared(w, r, acts[..n], f, side);
      hide Owned, FileOf, Half, Dispatcher.Next;
      NextSpared(Enact(w, r, acts[..n]), Do(r, acts[n]), r, f, side);
    }
  }

  predicate ElsewhereSpares(r: Rid, j: Joint, steps: seq<Step>, f: File, side: Side)
    decreases |steps|
  {
    steps == [] ||
    (&& (steps[0].Elsewhere? ==> !Shuts(j.w, steps[0].ev, f, side))
     && ElsewhereSpares(r, JointNext(r, j, steps[0]), steps[1..], f, side))
  }

  lemma JointSpared(r: Rid, j: Joint, step: Step, f: File, side: Side)
    requires Spared(j.w, j.w, r, f, side) && (side.Src? || side.Dst?)
    requires step.Elsewhere? ==> !Shuts(j.w, step.ev, f, side)
    ensures Spared(j.w, JointNext(r, j, step).w, r, f, side)
  {
    hide Spared, Shuts, Enact, Dispatcher.Next;
    match step
    case Own(e) =>
      if !e.Wakeup? {
        EnactSpared(j.w, r, Since(j.h.relay.acts, Relays.Next(j.h, e).relay.acts), f, side);
      }
    case Awaken(fd, file) =>
      assert !Shuts(j.w, Deliver(fd, file), f, side) by { DeliverShutsNothing(j.w, fd, file, f, side); }
      NextSpared(j.w, Deliver(fd, file), r, f, side);
    case Elsewhere(ev) =>
      if Foreign(j.w, r, ev) {
        NextSpared(j.w, ev, r, f, side);
      }
  }

  lemma DeliverShutsNothing(w: Loop, fd: Fd, file: File, f: File, side: Side)
    ensures !Shuts(w, Deliver(fd, file), f, side)
  {
  }

  /** A relay never disturbs the opposite direction: in every joint run, down to its destruction,
      it leaves the write half of the file it reads from and the read half of the file it writes
      to as they are, though those files are shared with the reactor of that direction. */
  lemma {:induction false} RelaySparesOtherDirection(r: Rid, j: Joint, steps: seq<Step>, f: File, side: Side)
    requires Owned(j.w) && f in j.w.poll.kernel.halves && (side.Src? || side.Dst?)
    requires FileOf(j.w, r, Opposite(side)) != Some(f) && ElsewhereSpares(r, j, steps, f, Opposite(side))
    ensures f in JointRun(r, j, steps).w.poll.kernel.halves
    ensures Half(JointRun(r, j, steps).w, f, Opposite(side)) <==> Half(j.w, f, Opposite(side))
    decreases |steps|
  {
    hide JointNext, Shuts;
    if steps != [] {
      JointSpared(r, j, steps[0], f, Opposite(side));
      RelaySparesOtherDirection(r, JointNext(r, j, steps[0]), steps[1..], f, side);
    }
  }
}
