/** core/streamreactor.cc with the socket calls of core/socket.hh and tls/tls.cc it relies on:
    one direction of a tunnel, moving bytes from a source to a destination through one buffer. */
module Relays {
  import opened Codec
  import opened Buffers
  import opened Logs

  /** Where a reactor stands with respect to the event loop: inside `process`, waiting for one
      event on one of its descriptors, returned without asking for an event, or deactivated. */
  datatype Ctl = Running | Armed(side: Side, dir: Dir) | Idle | Dead

  /** What a non-blocking receive answers. Plain TCP blocks for input only; TLS either way. */
  datatype RecvOutcome = Received(data: seq<byte>) | RecvAgain(dir: Dir) | RecvBroken | RecvFailed

  datatype SendOutcome = Accepted(n: nat) | SendAgain(dir: Dir) | SendBroken | SendFailed

  /** Result of `sockRecv`/`sockSend`: a byte count and the new buffer, or an exception. */
  datatype Io = Bytes(count: nat, buf: Buf) | Resched(dir: Dir) | Fault

  /** The part of that result the caller sees. */
  datatype SockCode = Count(n: nat) | WouldBlock(dir: Dir) | Threw

  function Code(io: Io): SockCode {
    match io
    case Bytes(n, _) => Count(n)
    case Resched(dir) => WouldBlock(dir)
    case Fault => Threw
  }

  /** The kernel never hands over more than the room offered, even when that is nothing. */
  function SockRecv(b: Buf, o: RecvOutcome): Io {
    match o
    case Received(data) =>
      var k := if b.Avail() < 0 then 0 else Min(|data|, b.Avail());
      Bytes(k, b.Use(data[..k]))
    case RecvAgain(dir) => Resched(dir)
    case RecvBroken => Bytes(0, b)
    case RecvFailed => Fault
  }

  function SockSend(b: Buf, o: SendOutcome): Io {
    match o
    case Accepted(n) => var k := Min(n, b.Used()); Bytes(k, b.Unuse(k))
    case SendAgain(dir) => Resched(dir)
    case SendBroken => Bytes(0, b)
    case SendFailed => Fault
  }

  /** The bytes that change hands in the two calls above. */
  function Gets(b: Buf, o: RecvOutcome): seq<byte> {
    if o.Received? && b.Avail() >= 0 then o.data[..Min(|o.data|, b.Avail())] else []
  }

  function Puts(b: Buf, o: SendOutcome): seq<byte> {
    if o.Accepted? then b.data[..Min(o.n, b.Used())] else []
  }

  datatype Mode = Receiving | Sending

  /** `acts` is the log of all calls made so far of the poller and on the descriptors. */
  datatype Relay = Relay(mode: Mode, buf: Buf, srcOpen: bool, dstOpen: bool, ctl: Ctl, acts: seq<Action>)

  /** Asking for an event, being deactivated, or just going on. */
  function Settle(s: Relay, ctl: Ctl): Relay {
    match ctl
    case Armed(side, dir) => s.(ctl := ctl, acts := s.acts + [Add(side, dir)])
    case Dead => s.(ctl := ctl, acts := s.acts + [Quit])
    case _ => s.(ctl := ctl)
  }

  /** `poller->add(this, srcSock.fd, ...)`, which does nothing if the source is closed. */
  function AskSrc(s: Relay): Relay {
    s.(ctl := if s.srcOpen then Armed(Src, In) else Idle, acts := s.acts + [Add(Src, In)])
  }

  /** `poller->remove` and `reset` of one end. */
  function DropSrc(s: Relay): Relay { s.(srcOpen := false, acts := s.acts + [Remove(Src)] + [Reset(Src)]) }

  function DropDst(s: Relay): Relay { s.(dstOpen := false, acts := s.acts + [Remove(Dst)] + [Reset(Dst)]) }

  function DropBoth(s: Relay): Relay { DropDst(DropSrc(s)).(ctl := Idle) }

  /** The destructor. */
  function Destroyed(s: Relay): Relay { s.(srcOpen := false, dstOpen := false, acts := Teardown(s.acts)) }

  /** `StreamReactor::start`: a descriptor that is not open is never armed. */
  function Start(s: Relay): Relay {
    if s.buf.Used() > 0 then Settle(s.(mode := Sending), Armed(Dst, Out)) else AskSrc(s.(mode := Receiving))
  }

  function Wake(s: Relay): Relay {
    if s.ctl.Armed? then s.(ctl := Running, acts := s.acts + [Fired]) else s
  }

  /** The receiving half of `process`. */
  function RecvStep(s: Relay, o: RecvOutcome): Relay {
    match SockRecv(s.buf, o)
    case Resched(dir) => Settle(s, Armed(Src, dir))
    case Fault => Settle(s, Dead)
    case Bytes(n, b) =>
      if n > 0 then s.(buf := b, mode := Sending)
      else if b.Used() == 0 then DropBoth(s.(buf := b))
      else DropSrc(s.(buf := b, mode := Sending))
  }

  /** The sending half of `process`. */
  function SendStep(s: Relay, o: SendOutcome): Relay {
    match SockSend(s.buf, o)
    case Resched(dir) => Settle(s, Armed(Dst, dir))
    case Fault => Settle(s, Dead)
    case Bytes(n, b) =>
      if n == 0 then DropBoth(s.(buf := b))
      else if b.Used() == 0 then AskSrc(s.(buf := b, mode := Receiving))
      else Settle(s.(buf := b), Armed(Dst, Out))
  }

  /** A whole call of `process`: receive if that is what we wait for, then send at once. */
  function Process(s: Relay, r: RecvOutcome, w: SendOutcome): Relay {
    var mid := if s.mode.Receiving? then RecvStep(s, r) else s;
    if mid.ctl.Running? then SendStep(mid, w) else mid
  }

  /** What a whole call of `process` writes to the destination. */
  function ProcessPuts(s: Relay, r: RecvOutcome, w: SendOutcome): seq<byte> {
    var mid := if s.mode.Receiving? then RecvStep(s, r) else s;
    if mid.ctl.Running? then Puts(mid.buf, w) else []
  }

  /** What every step keeps. */
  ghost predicate Inv(s: Relay) {
    && s.buf.Valid()
    && (s.mode.Receiving? ==> s.buf == EMPTY_BUF)
    && (s.ctl.Running? || s.ctl.Armed? ==> s.dstOpen)
    && (s.ctl.Running? || s.ctl.Armed? ==> s.mode.Sending? ==> s.buf.Used() > 0)
    && (s.ctl.Running? || s.ctl.Armed? ==> s.mode.Receiving? ==> s.srcOpen)
  }

  /** Plain TCP: a blocked receive waits for input, a blocked send for output. */
  ghost predicate Woken(s: Relay) {
    s.ctl.Armed? ==> s.ctl == if s.mode.Receiving? then Armed(Src, In) else Armed(Dst, Out)
  }

  /** `Killed`: somebody else, such as an inactivity timer, deactivates the reactor. `Gone`: it
      is destroyed, once it neither runs nor waits. */
  datatype Event = Wakeup | Recv(r: RecvOutcome) | Send(w: SendOutcome) | Killed | Gone

  ghost predicate Plain(e: Event) {
    match e
    case Recv(r) => r.RecvAgain? ==> r.dir == In
    case Send(w) => w.SendAgain? ==> w.dir == Out
    case _ => true
  }

  /** A relay together with all it has received and delivered so far; `ended` records that the
      source was seen to end. */
  datatype History = History(relay: Relay, received: seq<byte>, delivered: seq<byte>, ended: bool)

  /** One system call; a call made out of turn does nothing. */
  function Next(h: History, e: Event): History {
    var s := h.relay;
    match e
    case Wakeup => h.(relay := Wake(s))
    case Recv(r) =>
      if s.ctl.Running? && s.mode.Receiving? then
        var io := SockRecv(s.buf, r);
        h.(relay := RecvStep(s, r), received := h.received + Gets(s.buf, r),
           ended := h.ended || (io.Bytes? && io.count == 0))
      else h
    case Send(w) =>
      if s.ctl.Running? && s.mode.Sending? then
        h.(relay := SendStep(s, w), delivered := h.delivered + Puts(s.buf, w))
      else h
    case Killed => h.(relay := Settle(s, Dead))
    case Gone => if s.ctl.Running? || s.ctl.Armed? then h else h.(relay := Destroyed(s))
  }

  function Run(h: History, es: seq<Event>): History
    decreases |es|
  {
    if es == [] then h else Run(Next(h, es[0]), es[1..])
  }

  /** The reactor right after `start` with `initial` in its buffer. */
  function Fresh(initial: Buf, srcOpen: bool): History {
    History(Start(Relay(Receiving, initial, srcOpen, true, Running, [])), [], [], false)
  }

  ghost predicate HistoryInv(h: History, initial: seq<byte>) {
    && Inv(h.relay)
    && h.delivered + h.relay.buf.data == initial + h.received
    && (h.ended ==> h.relay.mode.Receiving? && !h.relay.srcOpen && !h.relay.dstOpen)
    && (h.relay.srcOpen && h.relay.dstOpen ==> !h.relay.ctl.Idle?)
  }

  lemma IoEffect(b: Buf, r: RecvOutcome, w: SendOutcome)
    requires b.Valid()
    ensures SockRecv(b, r).Bytes? ==>
              SockRecv(b, r).buf.Valid() && SockRecv(b, r).buf.data == b.data + Gets(b, r)
              && SockRecv(b, r).count == |Gets(b, r)|
    ensures SockRecv(b, r).Bytes? || Gets(b, r) == []
    ensures SockSend(b, w).Bytes? ==>
              SockSend(b, w).buf.Valid() && Puts(b, w) + SockSend(b, w).buf.data == b.data
              && SockSend(b, w).count == |Puts(b, w)|
    ensures SockSend(b, w).Bytes? || Puts(b, w) == []
  {
  }

  /** What the two socket calls do, from the kernel's answer alone: a receive appends all that
      was there, or as much as there is room for; a send takes the first bytes, as many as the
      kernel accepted; a broken connection reads as no bytes; blocking and failing are thrown. */
  lemma IoExact(b: Buf, r: RecvOutcome, w: SendOutcome)
    requires b.Valid()
    ensures match r
            case Received(data) =>
              && SockRecv(b, r).Bytes? && Gets(b, r) <= data
              && (Gets(b, r) == data || SockRecv(b, r).buf.Avail() == 0)
              && SockRecv(b, r).buf.data == b.data + Gets(b, r) && SockRecv(b, r).count == |Gets(b, r)|
            case RecvAgain(dir) => SockRecv(b, r) == Resched(dir)
            case RecvBroken => SockRecv(b, r) == Bytes(0, b)
            case RecvFailed => SockRecv(b, r) == Fault
    ensures match w
            case Accepted(n) =>
              && SockSend(b, w).Bytes? && Puts(b, w) + SockSend(b, w).buf.data == b.data
              && |Puts(b, w)| <= n && (|Puts(b, w)| == n || SockSend(b, w).buf.data == [])
              && SockSend(b, w).count == |Puts(b, w)|
            case SendAgain(dir) => SockSend(b, w) == Resched(dir)
            case SendBroken => SockSend(b, w) == Bytes(0, b)
            case SendFailed => SockSend(b, w) == Fault
  {
  }

  lemma RecvKeeps(s: Relay, o: RecvOutcome)
    requires Inv(s) && s.ctl.Running? && s.mode.Receiving?
    ensures Inv(RecvStep(s, o))
    ensures RecvStep(s, o).buf.data == s.buf.data + Gets(s.buf, o)
    ensures !RecvStep(s, o).dstOpen ==> Gets(s.buf, o) == [] && RecvStep(s, o) == DropBoth(s)
  {
    IoEffect(s.buf, o, SendBroken);
  }

  /** After a receive that leaves it running, a relay has something to send. */
  lemma RecvGoesOn(s: Relay, o: RecvOutcome)
    ensures RecvStep(s, o).ctl.Running? ==> RecvStep(s, o).mode.Sending?
  {
  }

  lemma SendKeeps(s: Relay, o: SendOutcome)
    requires Inv(s) && s.ctl.Running? && s.mode.Sending?
    ensures Inv(SendStep(s, o))
    ensures Puts(s.buf, o) + SendStep(s, o).buf.data == s.buf.data
  {
    IoEffect(s.buf, RecvBroken, o);
  }

  lemma NextRecvKeeps(h: History, r: RecvOutcome, initial: seq<byte>)
    requires HistoryInv(h, initial) && h.relay.ctl.Running? && h.relay.mode.Receiving?
    ensures HistoryInv(Next(h, Recv(r)), initial)
    ensures (r.RecvAgain? ==> r.dir == In) ==> Woken(Next(h, Recv(r)).relay)
  {
    var s := h.relay;
    RecvKeeps(s, r);
    assert h.delivered + (s.buf.data + Gets(s.buf, r)) == (h.delivered + s.buf.data) + Gets(s.buf, r);
    assert initial + (h.received + Gets(s.buf, r)) == (initial + h.received) + Gets(s.buf, r);
  }

  lemma NextSendKeeps(h: History, w: SendOutcome, initial: seq<byte>)
    requires HistoryInv(h, initial) && h.relay.ctl.Running? && h.relay.mode.Sending?
    ensures HistoryInv(Next(h, Send(w)), initial)
    ensures (w.SendAgain? ==> w.dir == Out) ==> Woken(Next(h, Send(w)).relay)
  {
    var s := h.relay;
    SendKeeps(s, w);
    var rest := SendStep(s, w).buf.data;
    assert (h.delivered + Puts(s.buf, w)) + rest == h.delivered + (Puts(s.buf, w) + rest);
  }

  lemma NextKeeps(h: History, e: Event, initial: seq<byte>)
    requires HistoryInv(h, initial)
    ensures HistoryInv(Next(h, e), initial)
    ensures Plain(e) && Woken(h.relay) ==> Woken(Next(h, e).relay)
  {
    hide RecvStep, SendStep;
    var s := h.relay;
    match e
    case Recv(r) =>
      if s.ctl.Running? && s.mode.Receiving? {
        NextRecvKeeps(h, r, initial);
      }
    case Send(w) =>
      if s.ctl.Running? && s.mode.Sending? {
        NextSendKeeps(h, w, initial);
      }
    case _ =>
  }

  lemma {:induction false} RunKeeps(h: History, es: seq<Event>, initial: seq<byte>)
    requires HistoryInv(h, initial)
    ensures HistoryInv(Run(h, es), initial)
    ensures (forall i :: 0 <= i < |es| ==> Plain(es[i])) && Woken(h.relay) ==> Woken(Run(h, es).relay)
    decreases |es|
  {
    if es == [] {
    } else {
      NextKeeps(h, es[0], initial);
      RunKeeps(Next(h, es[0]), es[1..], initial);
    }
  }

  /** Conservation and graceful close, over every run: delivered bytes followed by buffered
      bytes are exactly the initial bytes followed by the received ones; and when the
      destination is closed because the source ended, nothing is left behind. */
  lemma RelayConserves(initial: Buf, srcOpen: bool, es: seq<Event>)
    requires initial.Valid() && (initial.data == [] ==> initial == EMPTY_BUF)
    ensures var h := Run(Fresh(initial, srcOpen), es);
            && h.delivered + h.relay.buf.data == initial.data + h.received
            && (h.ended ==> !h.relay.dstOpen && h.delivered == initial.data + h.received)
  {
    RunKeeps(Fresh(initial, srcOpen), es, initial.data);
  }

  /** No lost wakeup: over every plain TCP run, a reactor that is alive, has both descriptors
      open and is not inside `process` waits for input exactly when its buffer is empty and for
      output exactly when it is not. */
  lemma NoLostWakeup(initial: Buf, es: seq<Event>)
    requires initial.Valid() && (initial.data == [] ==> initial == EMPTY_BUF)
    requires forall i :: 0 <= i < |es| ==> Plain(es[i])
    ensures var s := Run(Fresh(initial, true), es).relay;
            !s.ctl.Running? && !s.ctl.Dead? && s.srcOpen && s.dstOpen ==>
              && (s.ctl == Armed(Src, In) <==> s.buf.Used() == 0)
              && (s.ctl == Armed(Dst, Out) <==> s.buf.Used() > 0)
  {
    RunKeeps(Fresh(initial, true), es, initial.data);
  }

  /** A zero answer never means "no room" or "nothing offered": whenever a relay calls
      `recv` the whole buffer is free, and whenever it calls `send` it has a byte to send. */
  lemma ZeroIsNeverAmbiguous(initial: Buf, srcOpen: bool, es: seq<Event>)
    requires initial.Valid() && (initial.data == [] ==> initial == EMPTY_BUF)
    ensures var s := Run(Fresh(initial, srcOpen), es).relay;
            s.ctl.Running? ==>
              && (s.mode.Receiving? ==> s.buf.Avail() == BUF_SIZE)
              && (s.mode.Sending? ==> s.buf.Used() > 0)
  {
    RunKeeps(Fresh(initial, srcOpen), es, initial.data);
  }

  /** The reactor object: the buffer lives in an array, everything else in fields. */
  class StreamReactor {
    const buf: StreamBuffer
    var streamState: Mode
    var srcOpen: bool
    var dstOpen: bool
    var ctl: Ctl
    var acts: seq<Action>

    ghost const Repr: set<object>

    ghost predicate Valid()
      reads this, buf
    {
      Repr == {this, buf, buf.buf} && buf.Valid()
    }

    ghost function View(): Relay
      requires Valid()
      reads this, buf, buf.buf
    {
      Relay(streamState, buf.View(), srcOpen, dstOpen, ctl, acts)
    }

    constructor (srcOpen: bool, dstOpen: bool)
      ensures Valid() && fresh(Repr)
      ensures View() == Relay(Receiving, EMPTY_BUF, srcOpen, dstOpen, Running, [])
    {
      var b := new StreamBuffer();
      buf := b;
      streamState, ctl, acts := Receiving, Running, [];
      this.srcOpen, this.dstOpen := srcOpen, dstOpen;
      Repr := {this, b, b.buf};
    }

    /** `sockRecv` into the buffer. */
    method Receive(o: RecvOutcome) returns (c: SockCode)
      requires Valid()
      modifies Repr - {this}
      ensures Valid()
      ensures var io := SockRecv(old(buf.View()), o);
              c == Code(io) && buf.View() == if io.Bytes? then io.buf else old(buf.View())
    {
      match o
      case Received(data) =>
        var room := buf.AvailSize();
        var k := Min(|data|, room);
        buf.Fill(data[..k]);
        c := Count(k);
      case RecvAgain(dir) => c := WouldBlock(dir);
      case RecvBroken => c := Count(0);
      case RecvFailed => c := Threw;
    }

    /** `sockSend` from the buffer; `sent` is what the peer will see. */
    method Transmit(o: SendOutcome) returns (c: SockCode, sent: seq<byte>)
      requires Valid()
      modifies Repr - {this}
      ensures Valid() && sent == Puts(old(buf.View()), o)
      ensures var io := SockSend(old(buf.View()), o);
              c == Code(io) && buf.View() == if io.Bytes? then io.buf else old(buf.View())
    {
      sent := [];
      match o
      case Accepted(n) =>
        var used := buf.UsedSize();
        var k := Min(n, used);
        sent := buf.Peek(k);
        buf.Unuse(k);
        c := Count(k);
      case SendAgain(dir) => c := WouldBlock(dir);
      case SendBroken => c := Count(0);
      case SendFailed => c := Threw;
    }

    method SetCtl(c: Ctl)
      requires Valid()
      modifies this`ctl, this`acts
      ensures Valid() && View() == Settle(old(View()), c)
    {
      match c {
        case Armed(side, dir) => acts := acts + [Add(side, dir)];
        case Dead => acts := acts + [Quit];
        case _ =>
      }
      ctl := c;
    }

    method AddSource()
      requires Valid()
      modifies this`ctl, this`acts
      ensures Valid() && View() == AskSrc(old(View()))
    {
      acts := acts + [Add(Src, In)];
      ctl := if srcOpen then Armed(Src, In) else Idle;
    }

    method CloseSource()
      requires Valid()
      modifies this`srcOpen, this`acts
      ensures Valid() && View() == DropSrc(old(View()))
    {
      acts := acts + [Remove(Src)];
      acts := acts + [Reset(Src)];
      srcOpen := false;
    }

    method CloseDestination()
      requires Valid()
      modifies this`dstOpen, this`acts
      ensures Valid() && View() == DropDst(old(View()))
    {
      acts := acts + [Remove(Dst)];
      acts := acts + [Reset(Dst)];
      dstOpen := false;
    }

    method Begin()
      requires Valid()
      modifies this
      ensures Valid() && View() == Start(old(View()))
    {
      var used := buf.UsedSize();
      streamState := if used > 0 then Sending else Receiving;
      match streamState
      case Receiving => AddSource();
      case Sending => SetCtl(Armed(Dst, Out));
    }

    method RecvHalf(r: RecvOutcome)
      requires Valid() && ctl.Running? && streamState.Receiving?
      modifies Repr
      ensures Valid() && View() == RecvStep(old(View()), r)
    {
      var c := Receive(r);
      match c
      case WouldBlock(dir) => SetCtl(Armed(Src, dir));
      case Threw => SetCtl(Dead);
      case Count(n) =>
        if n == 0 {
          CloseSource();
          var used := buf.UsedSize();
          if used == 0 {
            CloseDestination();
            ctl := Idle;
            return;
          }
        }
        streamState := Sending;
    }

    method SendHalf(w: SendOutcome) returns (sent: seq<byte>)
      requires Valid() && ctl.Running? && streamState.Sending?
      modifies Repr
      ensures Valid() && View() == SendStep(old(View()), w) && sent == Puts(old(View()).buf, w)
    {
      var c;
      c, sent := Transmit(w);
      match c
      case WouldBlock(dir) => SetCtl(Armed(Dst, dir));
      case Threw => SetCtl(Dead);
      case Count(n) =>
        var used := buf.UsedSize();
        if n == 0 {
          CloseSource();
          CloseDestination();
          ctl := Idle;
        } else if used == 0 {
          streamState := Receiving;
          AddSource();
        } else {
          SetCtl(Armed(Dst, Out));
        }
    }

    /** `StreamReactor::process`; `r` and `w` are what the kernel answers if asked. */
    method Step(r: RecvOutcome, w: SendOutcome) returns (sent: seq<byte>)
      requires Valid() && ctl.Running?
      modifies Repr
      ensures Valid() && View() == Process(old(View()), r, w)
      ensures sent == ProcessPuts(old(View()), r, w)
    {
      sent := [];
      if streamState.Receiving? {
        RecvHalf(r);
      }
      if ctl.Running? {
        sent := SendHalf(w);
      }
    }
  }
}
