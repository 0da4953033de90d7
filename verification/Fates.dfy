/** How a relay ends, and that it does not end otherwise: over every run the state of a
    StreamReactor follows from what its system calls reported, and nothing else. */
module Fates {
  import opened Wrappers
  import opened Codec
  import opened Buffers
  import opened Logs
  import opened Relays
  import opened Discipline

  /** What has been reported so far. `ended`: a receive brought nothing. `refused`: a send took
      nothing. `failed`: a call failed, or somebody deactivated the reactor. `gone`: it was
      destroyed. `busy`: it is inside `process`. `blocked`: the direction in which the call it
      returned from blocked, if it did. */
  datatype Reports = Reports(ended: bool, refused: bool, failed: bool, gone: bool, busy: bool, blocked: Option<Dir>)

  datatype Fate = Fate(h: History, reports: Reports)

  predicate NothingReceived(b: Buf, r: RecvOutcome) { (r.Received? || r.RecvBroken?) && Gets(b, r) == [] }

  predicate NothingSent(b: Buf, w: SendOutcome) { (w.Accepted? || w.SendBroken?) && Puts(b, w) == [] }

  /** What an event reports; a call made out of turn reports nothing. */
  function Report(h: History, was: Reports, e: Event): Reports {
    var s := h.relay;
    match e
    case Wakeup => if s.ctl.Armed? then was.(busy := true, blocked := None) else was
    case Recv(r) =>
      if !(s.ctl.Running? && s.mode.Receiving?) then was
      else was.(ended := was.ended || NothingReceived(s.buf, r), failed := was.failed || r.RecvFailed?,
                busy := Gets(s.buf, r) != [], blocked := if r.RecvAgain? then Some(r.dir) else None)
    case Send(w) =>
      if !(s.ctl.Running? && s.mode.Sending?) then was
      else was.(refused := was.refused || NothingSent(s.buf, w), failed := was.failed || w.SendFailed?,
                busy := false, blocked := if w.SendAgain? then Some(w.dir) else None)
    case Killed => was.(failed := true, busy := false)
    case Gone => if s.ctl.Running? || s.ctl.Armed? then was else was.(gone := true)
  }

  function Next(f: Fate, e: Event): Fate { Fate(Relays.Next(f.h, e), Report(f.h, f.reports, e)) }

  function Run(f: Fate, es: seq<Event>): Fate
    decreases |es|
  {
    if es == [] then f else Run(Next(f, es[0]), es[1..])
  }

  function Started(initial: Buf, srcOpen: bool): Fate {
    Fate(Fresh(initial, srcOpen), Reports(false, false, false, false, false, None))
  }

  /** The end of the stream, in either direction, or of the reactor. */
  predicate Over(r: Reports) { r.ended || r.refused || r.gone }

  /** Both ends were removed from the poller and closed, and no event is due. */
  ghost predicate ClosedBoth(acts: seq<Action>) {
    && Reset(Src) in acts && Reset(Dst) in acts && Judged(acts).armed.None? && {Src, Dst} <= Judged(acts).removed
  }

  /** The state of a reactor, from the reports: it is dead exactly if a call failed; its ends are
      open exactly until the stream is over; while neither happened it runs, or waits on the side
      and in the direction in which it blocked or which its buffer calls for, or has nothing left
      to do because its source was never open. */
  ghost predicate Fated(s: Relay, r: Reports, srcOpen: bool) {
    && (s.ctl.Dead? <==> r.failed)
    && (s.srcOpen <==> srcOpen && !Over(r)) && (s.dstOpen <==> !Over(r))
    && (s.ctl.Running? <==> r.busy) && (r.busy ==> !r.failed && !Over(r))
    && (Over(r) && !r.failed ==> s.ctl.Idle?)
    && (s.ctl.Idle? && !Over(r) ==> !srcOpen && s.buf.Used() == 0 && Judged(s.acts).armed == Some(Src))
    && (s.ctl.Armed? ==>
          && s.ctl.side == (if s.buf.Used() == 0 then Src else Dst)
          && s.ctl.dir == (if r.blocked.Some? then r.blocked.value else if s.buf.Used() == 0 then In else Out))
    && (Over(r) ==> ClosedBoth(s.acts))
    && (r.failed ==> Judged(s.acts).armed.None? && {Src, Dst} <= Judged(s.acts).removed)
  }

  ghost predicate FateInv(f: Fate, initial: seq<byte>, srcOpen: bool) {
    HistoryInv(f.h, initial) && Tidy(f.h.relay) && Fated(f.h.relay, f.reports, srcOpen)
  }

  // ----- logs -----

  lemma DropBothCloses(s: Relay)
    requires Tidy(s) && s.ctl.Running?
    ensures ClosedBoth(DropBoth(s).acts)
  {
    hide Judged, Adds;
    var m := DropSrc(s);
    JudgedNext(s.acts, Remove(Src));
    JudgedNext(s.acts + [Remove(Src)], Reset(Src));
    JudgedNext(m.acts, Remove(Dst));
    JudgedNext(m.acts + [Remove(Dst)], Reset(Dst));
    assert DropBoth(s).acts == m.acts + [Remove(Dst)] + [Reset(Dst)];
    assert Reset(Src) in m.acts;
  }

  lemma QuitCloses(s: Relay)
    ensures var acts := Settle(s, Dead).acts;
            && Judged(acts).armed.None? && {Src, Dst} <= Judged(acts).removed
            && (ClosedBoth(s.acts) ==> ClosedBoth(acts))
  {
    hide Judged, Adds;
    JudgedNext(s.acts, Quit);
  }

  lemma DestroyedCloses(s: Relay)
    requires Judged(s.acts).armed in {None, Some(Src), Some(Dst)}
    ensures ClosedBoth(Destroyed(s).acts)
  {
    hide Judged, Adds;
    var a, b := s.acts + [Remove(Src)], s.acts + [Remove(Src)] + [Remove(Dst)];
    JudgedNext(s.acts, Remove(Src));
    JudgedNext(a, Remove(Dst));
    JudgedNext(b, Reset(Dst));
    JudgedNext(b + [Reset(Dst)], Reset(Src));
  }

  // ----- steps -----

  lemma RecvFated(f: Fate, o: RecvOutcome, initial: seq<byte>, srcOpen: bool)
    requires FateInv(f, initial, srcOpen) && f.h.relay.ctl.Running? && f.h.relay.mode.Receiving?
    ensures var g := Next(f, Recv(o)); Fated(g.h.relay, g.reports, srcOpen)
  {
    hide Judged, Adds;
    var s := f.h.relay;
    IoEffect(s.buf, o, SendBroken);
    if NothingReceived(s.buf, o) {
      DropBothCloses(s);
    } else if o.RecvFailed? {
      QuitCloses(s);
    }
  }

  lemma SendFated(f: Fate, w: SendOutcome, initial: seq<byte>, srcOpen: bool)
    requires FateInv(f, initial, srcOpen) && f.h.relay.ctl.Running? && f.h.relay.mode.Sending?
    ensures var g := Next(f, Send(w)); Fated(g.h.relay, g.reports, srcOpen)
  {
    hide Judged, Adds;
    var s := f.h.relay;
    IoEffect(s.buf, RecvBroken, w);
    if NothingSent(s.buf, w) {
      DropBothCloses(s);
    } else if w.SendFailed? {
      QuitCloses(s);
    } else {
      JudgedNext(s.acts, Add(Src, In));
    }
  }

  /** A relay that is over or has failed stays so: only deactivation and destruction can follow. */
  lemma NextFated(f: Fate, e: Event, initial: seq<byte>, srcOpen: bool)
    requires FateInv(f, initial, srcOpen)
    ensures FateInv(Next(f, e), initial, srcOpen)
  {
    hide Judged, Adds;
    var s := f.h.relay;
    Relays.NextKeeps(f.h, e, initial);
    match e
    case Wakeup => WakeTidy(s);
    case Recv(o) =>
      if s.ctl.Running? && s.mode.Receiving? {
        RecvOrderly(s, o);
        RecvFated(f, o, initial, srcOpen);
      }
    case Send(w) =>
      if s.ctl.Running? && s.mode.Sending? {
        SendOrderly(s, w);
        SendFated(f, w, initial, srcOpen);
      }
    case Killed =>
      QuitTidy(s);
      QuitCloses(s);
    case Gone =>
      if !s.ctl.Running? && !s.ctl.Armed? {
        DestroyedTidy(s);
        DestroyedCloses(s);
      }
  }

  lemma {:induction false} RunFated(f: Fate, es: seq<Event>, initial: seq<byte>, srcOpen: bool)
    requires FateInv(f, initial, srcOpen)
    ensures FateInv(Run(f, es), initial, srcOpen)
    decreases |es|
  {
    hide FateInv, Next;
    if es != [] {
      NextFated(f, es[0], initial, srcOpen);
      RunFated(Next(f, es[0]), es[1..], initial, srcOpen);
    }
  }

  /** Over every run a relay does exactly what its calls report. If a send takes nothing or a
      receive brings nothing, both ends are removed and closed from then on and it waits for
      nothing; if a call fails it is dead from then on with both ends removed; and as long as
      none of this happens, and nobody else takes it down, both ends stay open and it runs or
      waits for the event that its last call or its buffer asks for. */
  lemma RelayFate(initial: Buf, srcOpen: bool, es: seq<Event>)
    requires initial.Valid() && (initial.data == [] ==> initial == EMPTY_BUF)
    ensures var f := Run(Started(initial, srcOpen), es);
            Fated(f.h.relay, f.reports, srcOpen)
  {
    StartedFated(initial, srcOpen);
    RunFated(Started(initial, srcOpen), es, initial.data, srcOpen);
  }

  lemma NewTidy(s: Relay)
    requires s.acts == [] && s.ctl.Running?
    ensures Tidy(s)
  {
  }

  lemma StartedFated(initial: Buf, srcOpen: bool)
    requires initial.Valid() && (initial.data == [] ==> initial == EMPTY_BUF)
    ensures FateInv(Started(initial, srcOpen), initial.data, srcOpen)
  {
    hide Judged, Adds;
    var s := Relay(Receiving, initial, srcOpen, true, Running, []);
    NewTidy(s);
    StartOrderly(s);
    JudgedNext([], Add(Src, In));
  }
}
