/** core/timeoutreactor.hh, core/timeoutreactor.cc and core/timer.cc: one FIFO per interval;
    a tick pops expired timers from the front of each and stops at the first unexpired one. */
module Timers {
  type Tid = nat

  /** The clock counts nanoseconds, intervals are in milliseconds. */
  const MS := 1_000_000

  /** `tracked`: the timer has been added to the reactor, which happens at most once. */
  datatype Timer = Timer(interval: int, arm: int, tracked: bool)

  datatype Sched = Sched(queues: map<int, seq<Tid>>, timers: map<Tid, Timer>)

  /** `duration_cast<milliseconds>` truncates towards zero. */
  function Millis(d: int): int { if d >= 0 then d / MS else -((-d) / MS) }

  predicate Due(s: Sched, t: Tid, timeout: int, now: int) {
    t in s.timers && Millis(now - s.timers[t].arm) >= timeout
  }

  predicate Linked(s: Sched, t: Tid) {
    t in s.timers && s.timers[t].interval in s.queues && t in s.queues[s.timers[t].interval]
  }

  function Without(q: seq<Tid>, t: Tid): seq<Tid> {
    if q == [] then [] else if q[0] == t then q[1..] else [q[0]] + Without(q[1..], t)
  }

  // ----- the four operations -----

  function AddTimer(s: Sched, t: Tid, now: int): Sched
    requires t in s.timers && s.timers[t].interval in s.queues
  {
    var iv := s.timers[t].interval;
    Sched(s.queues[iv := s.queues[iv] + [t]], s.timers[t := s.timers[t].(arm := now, tracked := true)])
  }

  function RefreshTimer(s: Sched, t: Tid, now: int): Sched
    requires t in s.timers && s.timers[t].interval in s.queues
  {
    var iv := s.timers[t].interval;
    var armed := s.(timers := s.timers[t := s.timers[t].(arm := now)]);
    if t !in s.queues[iv] then armed else armed.(queues := s.queues[iv := Without(s.queues[iv], t) + [t]])
  }

  function CancelTimer(s: Sched, t: Tid): Sched
    requires t in s.timers && s.timers[t].interval in s.queues
  {
    var iv := s.timers[t].interval;
    if t !in s.queues[iv] then s else s.(queues := s.queues[iv := Without(s.queues[iv], t)])
  }

  /** How many timers the inner loop pops. */
  function Lead(s: Sched, q: seq<Tid>, timeout: int, now: int): (n: nat)
    ensures n <= |q|
  {
    if q == [] || !Due(s, q[0], timeout, now) then 0 else 1 + Lead(s, q[1..], timeout, now)
  }

  function Tick(s: Sched, now: int): Sched {
    s.(queues := map iv | iv in s.queues :: s.queues[iv][Lead(s, s.queues[iv], iv, now)..])
  }

  /** What is popped from the queues of some of the intervals. */
  ghost function PoppedFrom(s: Sched, now: int, ivs: set<int>): set<Tid> {
    set iv, t | iv in ivs && iv in s.queues && t in s.queues[iv][..Lead(s, s.queues[iv], iv, now)] :: t
  }

  ghost function Popped(s: Sched, now: int): set<Tid> { PoppedFrom(s, now, s.queues.Keys) }

  /** What a scan of every linked timer would select. */
  ghost function Scan(s: Sched, now: int): set<Tid> {
    set iv, t | iv in s.queues && t in s.queues[iv] && Due(s, t, iv, now) :: t
  }

  // ----- invariants -----

  /** Every timer is linked only in the queue of its own interval, and only once. */
  ghost predicate Wf(s: Sched) {
    && (forall iv, i :: iv in s.queues && 0 <= i < |s.queues[iv]| ==>
          s.queues[iv][i] in s.timers && s.timers[s.queues[iv][i]].interval == iv && s.timers[s.queues[iv][i]].tracked)
    && (forall iv, i, j :: iv in s.queues && 0 <= i < j < |s.queues[iv]| ==> s.queues[iv][i] != s.queues[iv][j])
  }

  ghost predicate SortedQueue(s: Sched, q: seq<Tid>) {
    forall i, j :: 0 <= i < j < |q| && q[i] in s.timers && q[j] in s.timers ==> s.timers[q[i]].arm <= s.timers[q[j]].arm
  }

  ghost predicate Sorted(s: Sched) { forall iv :: iv in s.queues ==> SortedQueue(s, s.queues[iv]) }

  /** No due timer waits behind one that is not due. */
  ghost predicate FrontLoaded(s: Sched, now: int) {
    forall iv, i, j :: iv in s.queues && 0 <= i < j < |s.queues[iv]| && Due(s, s.queues[iv][j], iv, now) ==>
      Due(s, s.queues[iv][i], iv, now)
  }

  lemma {:induction false} LeadIsDue(s: Sched, q: seq<Tid>, timeout: int, now: int)
    ensures var n := Lead(s, q, timeout, now);
            && (forall i :: 0 <= i < n ==> Due(s, q[i], timeout, now))
            && (n < |q| ==> !Due(s, q[n], timeout, now))
  {
    if q == [] || !Due(s, q[0], timeout, now) {
    } else {
      LeadIsDue(s, q[1..], timeout, now);
      var n := Lead(s, q, timeout, now);
      forall i | 0 <= i < n
        ensures Due(s, q[i], timeout, now)
      {
        if i > 0 {
          assert q[i] == q[1..][i - 1];
        }
      }
    }
  }

  /** A tick pops exactly what a full scan would select if and only if no due timer waits
      behind one that is not due. */
  lemma TickIsScanIff(s: Sched, now: int)
    requires Wf(s)
    ensures Popped(s, now) == Scan(s, now) <==> FrontLoaded(s, now)
  {
    forall iv | iv in s.queues
      ensures var q := s.queues[iv]; var n := Lead(s, q, iv, now);
              && (forall i :: 0 <= i < n ==> Due(s, q[i], iv, now)) && (n < |q| ==> !Due(s, q[n], iv, now))
    {
      LeadIsDue(s, s.queues[iv], iv, now);
    }
    assert Popped(s, now) <= Scan(s, now);
    if FrontLoaded(s, now) {
      forall iv, t | iv in s.queues && t in s.queues[iv] && Due(s, t, iv, now)
        ensures t in s.queues[iv][..Lead(s, s.queues[iv], iv, now)]
      {
        var q := s.queues[iv];
        var n := Lead(s, q, iv, now);
        var j :| 0 <= j < |q| && q[j] == t;
        assert j < n;
        assert q[..n][j] == t;
      }
      assert Scan(s, now) <= Popped(s, now);
    } else {
      var iv, i, j :| iv in s.queues && 0 <= i < j < |s.queues[iv]| && Due(s, s.queues[iv][j], iv, now)
                      && !Due(s, s.queues[iv][i], iv, now);
      var t := s.queues[iv][j];
      assert t in Scan(s, now);
      assert j >= Lead(s, s.queues[iv], iv, now);
      NotPopped(s, now, iv, j);
    }
  }

  lemma NotPopped(s: Sched, now: int, iv: int, j: nat)
    requires Wf(s) && iv in s.queues && Lead(s, s.queues[iv], iv, now) <= j < |s.queues[iv]|
    ensures s.queues[iv][j] !in Popped(s, now)
  {
    var t := s.queues[iv][j];
    forall iv', k | iv' in s.queues && 0 <= k < Lead(s, s.queues[iv'], iv', now)
      ensures s.queues[iv'][k] != t
    {
      assert s.timers[s.queues[iv'][k]].interval == iv' && s.timers[t].interval == iv;
    }
  }

  lemma SortedIsFrontLoaded(s: Sched, now: int)
    requires Wf(s) && Sorted(s)
    ensures FrontLoaded(s, now)
  {
    forall iv, i, j | iv in s.queues && 0 <= i < j < |s.queues[iv]| && Due(s, s.queues[iv][j], iv, now)
      ensures Due(s, s.queues[iv][i], iv, now)
    {
      var q := s.queues[iv];
      assert s.timers[q[i]].arm <= s.timers[q[j]].arm;
      MillisMonotone(now - s.timers[q[j]].arm, now - s.timers[q[i]].arm);
    }
  }

  lemma MillisMonotone(a: int, b: int)
    requires a <= b
    ensures Millis(a) <= Millis(b)
  {
  }

  /** From which age on `Millis` reaches a timeout; at and below zero truncation shifts it. */
  function Threshold(timeout: int): int { if timeout > 0 then timeout * MS else (timeout - 1) * MS + 1 }

  lemma DueIff(s: Sched, t: Tid, timeout: int, now: int)
    requires t in s.timers
    ensures Due(s, t, timeout, now) <==> now - s.timers[t].arm >= Threshold(timeout)
  {
  }

  /** Ticks and full scans agree at every time to come if and only if every queue is in the order
      in which its timers were armed. */
  lemma TickIsScanAlways(s: Sched)
    requires Wf(s)
    ensures (forall now: int :: Popped(s, now) == Scan(s, now)) <==> Sorted(s)
  {
    if Sorted(s) {
      forall now: int
        ensures Popped(s, now) == Scan(s, now)
      {
        SortedIsFrontLoaded(s, now);
        TickIsScanIff(s, now);
      }
    } else {
      var iv :| iv in s.queues && !SortedQueue(s, s.queues[iv]);
      var q := s.queues[iv];
      var i, j :| 0 <= i < j < |q| && s.timers[q[i]].arm > s.timers[q[j]].arm;
      var now := s.timers[q[j]].arm + Threshold(iv);
      DueIff(s, q[j], iv, now);
      DueIff(s, q[i], iv, now);
      assert !FrontLoaded(s, now);
      TickIsScanIff(s, now);
    }
  }

  /** The clock has not gone back behind the last timer armed in a queue. */
  predicate NotBefore(s: Sched, q: seq<Tid>, now: int) {
    q == [] || (q[|q| - 1] in s.timers && s.timers[q[|q| - 1]].arm <= now)
  }

  /** `t` goes to the back with arm time `now`, and nothing else about the queue changes. */
  lemma AppendSorted(s: Sched, after: Sched, q: seq<Tid>, t: Tid, now: int)
    requires SortedQueue(s, q) && t !in q && t in after.timers && after.timers[t].arm == now
    requires forall x :: x in q ==> x in s.timers && x in after.timers && after.timers[x].arm == s.timers[x].arm
    ensures SortedQueue(after, q + [t]) <==> NotBefore(s, q, now)
  {
    var all := q + [t];
    if q != [] {
      var n := |q|;
      assert q[n - 1] in q && all[n - 1] == q[n - 1] && all[n] == t;
      if NotBefore(s, q, now) {
        forall i, j | 0 <= i < j < |all|
          ensures after.timers[all[i]].arm <= after.timers[all[j]].arm
        {
          assert all[i] == q[i] && q[i] in q;
          assert s.timers[q[i]].arm <= s.timers[q[n - 1]].arm;
        }
      }
    }
  }

  /** Sortedness of the other queues does not depend on `t`. */
  lemma OtherQueues(s: Sched, q: Sched, t: Tid)
    requires Wf(s) && Sorted(s) && Known(s, t) && q.queues.Keys == s.queues.Keys
    requires t in q.timers && q.timers == s.timers[t := q.timers[t]]
    requires forall iv :: iv in s.queues && iv != s.timers[t].interval ==> q.queues[iv] == s.queues[iv]
    ensures Sorted(q) <==> SortedQueue(q, q.queues[s.timers[t].interval])
  {
    forall iv | iv in s.queues && iv != s.timers[t].interval
      ensures SortedQueue(q, q.queues[iv])
    {
      assert SortedQueue(s, s.queues[iv]);
      assert t !in s.queues[iv];
    }
  }

  /** Adding a timer keeps the order, and with it every future tick complete, exactly when the
      clock has not gone back behind the last timer of its queue. */
  lemma AddKeepsSorted(s: Sched, t: Tid, now: int)
    requires Wf(s) && Sorted(s) && Known(s, t) && !s.timers[t].tracked
    ensures Sorted(AddTimer(s, t, now)) <==> NotBefore(s, s.queues[s.timers[t].interval], now)
  {
    var was := s.queues[s.timers[t].interval];
    var q := AddTimer(s, t, now);
    OtherQueues(s, q, t);
    assert SortedQueue(s, was);
    QueueKnown(s, s.timers[t].interval);
    hide Wf, Sorted, SortedQueue;
    AppendSorted(s, q, was, t, now);
  }

  lemma QueueKnown(s: Sched, iv: int)
    requires Wf(s) && iv in s.queues
    ensures NoDup(s.queues[iv]) && forall x :: x in s.queues[iv] ==> x in s.timers && s.timers[x].interval == iv && s.timers[x].tracked
  {
  }

  /** Refreshing keeps the order exactly when the timer is not linked, or the clock has not gone
      back behind the last of the others. */
  lemma RefreshKeepsSorted(s: Sched, t: Tid, now: int)
    requires Wf(s) && Sorted(s) && Known(s, t)
    ensures var q := s.queues[s.timers[t].interval];
            Sorted(RefreshTimer(s, t, now)) <==> t !in q || NotBefore(s, Without(q, t), now)
  {
    var was := s.queues[s.timers[t].interval];
    var q := RefreshTimer(s, t, now);
    OtherQueues(s, q, t);
    assert SortedQueue(s, was);
    QueueKnown(s, s.timers[t].interval);
    if t in was {
      WithoutKeeps(s, was, t);
      WithoutMembers(was, t);
      AppendSorted(s, q, Without(was, t), t, now);
    }
  }

  /** With a clock that is set back between two additions, the tick misses a timer that a scan
      would find: the hypothesis of a nondecreasing clock cannot be dropped. */
  lemma ClockSetBackMisses()
    ensures var s0 := Sched(map[10 := []], map[1 := Timer(10, 0, false), 2 := Timer(10, 0, false)]);
            var s := AddTimer(AddTimer(s0, 1, 100 * MS), 2, 50 * MS);
            Wf(s) && 2 in Scan(s, 70 * MS) && Popped(s, 70 * MS) == {}
  {
    var s0 := Sched(map[10 := []], map[1 := Timer(10, 0, false), 2 := Timer(10, 0, false)]);
    var s := AddTimer(AddTimer(s0, 1, 100 * MS), 2, 50 * MS);
    assert s.queues[10] == [1, 2];
    assert Due(s, 2, 10, 70 * MS) && !Due(s, 1, 10, 70 * MS);
    assert Lead(s, s.queues[10], 10, 70 * MS) == 0;
  }

  // ----- runs -----

  /** A firing: which timer, its interval and last arm time, when, and when the tick before was. */
  datatype Firing = Firing(t: Tid, interval: int, arm: int, at: int, previous: int)

  /** `clock` is the latest time seen, `lastTick` that of the latest tick, `count` how often
      each timer has fired, `armed` when each was last added or refreshed, and `cancelled` which
      were cancelled. */
  datatype History = History(s: Sched, clock: int, lastTick: int, count: map<Tid, nat>, log: set<Firing>,
                             armed: map<Tid, int>, cancelled: set<Tid>)

  datatype Event = Add(t: Tid, now: int) | Refresh(t: Tid, now: int) | Cancel(t: Tid) | Expire(now: int)

  predicate Known(s: Sched, t: Tid) { t in s.timers && s.timers[t].interval in s.queues }

  /** The source's assertions, and a clock that does not go back. */
  predicate Legal(h: History, e: Event) {
    match e
    case Add(t, now) => now >= h.clock && Known(h.s, t) && !h.s.timers[t].tracked
    case Refresh(t, now) => now >= h.clock && Known(h.s, t) && h.s.timers[t].tracked
    case Cancel(t) => Known(h.s, t) && h.s.timers[t].tracked
    case Expire(now) => now >= h.clock
  }

  function Count(h: History, t: Tid): nat { if t in h.count then h.count[t] else 0 }

  ghost function Next(h: History, e: Event): History {
    if !Legal(h, e) then h else
    match e
    case Add(t, now) => h.(s := AddTimer(h.s, t, now), clock := now, armed := h.armed[t := now])
    case Refresh(t, now) => h.(s := RefreshTimer(h.s, t, now), clock := now, armed := h.armed[t := now])
    case Cancel(t) => h.(s := CancelTimer(h.s, t), cancelled := h.cancelled + {t})
    case Expire(now) =>
      var popped := Popped(h.s, now);
      h.(s := Tick(h.s, now), clock := now, lastTick := now,
         count := map t | t in h.s.timers :: Count(h, t) + (if t in popped then 1 else 0),
         log := h.log + set t | t in popped && t in h.s.timers ::
                          Firing(t, h.s.timers[t].interval, h.s.timers[t].arm, now, h.lastTick))
  }

  /** Timers are known in advance but not yet added; the first period starts at `start`. */
  ghost predicate Initial(h: History) {
    && (forall iv :: iv in h.s.queues ==> h.s.queues[iv] == [])
    && (forall t :: t in h.s.timers ==> !h.s.timers[t].tracked)
    && h.clock == h.lastTick && h.count == map[] && h.log == {} && h.armed == map[] && h.cancelled == {}
  }

  /** Since the last tick no linked timer can have been overdue at it. */
  ghost predicate Fair(h: History) {
    && h.lastTick <= h.clock
    && (forall t :: t in h.s.timers && h.s.timers[t].tracked ==> h.s.timers[t].arm <= h.clock)
    && (forall iv, t :: iv in h.s.queues && t in h.s.queues[iv] && iv > 0 && t in h.s.timers ==>
          h.lastTick - h.s.timers[t].arm < iv * MS)
  }

  ghost predicate Once(h: History) {
    forall t :: Count(h, t) > 0 ==> Count(h, t) == 1 && t in h.s.timers && h.s.timers[t].tracked && !Linked(h.s, t)
  }

  ghost predicate InTime(f: Firing) {
    && (f.interval >= 0 ==> f.interval * MS <= f.at - f.arm)
    && (f.interval > 0 ==> f.at - f.arm < f.interval * MS + (f.at - f.previous))
  }

  ghost predicate HistoryInv(h: History) {
    Wf(h.s) && Sorted(h.s) && Fair(h) && Once(h) && (forall f :: f in h.log ==> InTime(f))
  }

  ghost predicate NoDup(q: seq<Tid>) { forall i, j :: 0 <= i < j < |q| ==> q[i] != q[j] }

  lemma {:induction false} WithoutMembers(q: seq<Tid>, t: Tid)
    requires NoDup(q)
    ensures forall x :: x in Without(q, t) <==> x in q && x != t
  {
    if q == [] {
    } else if q[0] == t {
      assert q == [t] + q[1..];
    } else {
      WithoutMembers(q[1..], t);
      assert q == [q[0]] + q[1..];
    }
  }

  lemma {:induction false} WithoutKeeps(s: Sched, q: seq<Tid>, t: Tid)
    requires NoDup(q) && SortedQueue(s, q)
    ensures NoDup(Without(q, t)) && SortedQueue(s, Without(q, t))
  {
    if q == [] || q[0] == t {
    } else {
      WithoutKeeps(s, q[1..], t);
      WithoutMembers(q[1..], t);
      var w := Without(q[1..], t);
      forall j | 0 <= j < |w|
        ensures w[j] != q[0] && (q[0] in s.timers && w[j] in s.timers ==> s.timers[q[0]].arm <= s.timers[w[j]].arm)
      {
        assert w[j] in q[1..];
        var k :| 0 <= k < |q[1..]| && q[1..][k] == w[j];
        assert q[k + 1] == w[j];
      }
      assert Without(q, t) == [q[0]] + w;
    }
  }

  /** Only one queue and one timer change in add, refresh and cancel. */
  lemma OneQueue(s: Sched, q: Sched, iv: int, t: Tid)
    requires Wf(s) && Sorted(s) && iv in s.queues && t in s.timers && s.timers[t].interval == iv
    requires iv in q.queues && q.queues == s.queues[iv := q.queues[iv]]
    requires t in q.timers && q.timers == s.timers[t := q.timers[t]] && q.timers[t].interval == iv && q.timers[t].tracked
    requires NoDup(q.queues[iv]) && SortedQueue(q, q.queues[iv])
    requires forall x :: x in q.queues[iv] ==> x == t || x in s.queues[iv]
    ensures Wf(q) && Sorted(q)
  {
    forall other | other in s.queues && other != iv
      ensures t !in s.queues[other] && q.queues[other] == s.queues[other] && SortedQueue(q, q.queues[other])
    {
    }
    forall i | 0 <= i < |q.queues[iv]|
      ensures q.queues[iv][i] in q.timers && q.timers[q.queues[iv][i]].interval == iv && q.timers[q.queues[iv][i]].tracked
    {
      assert q.queues[iv][i] in q.queues[iv];
    }
  }

  lemma LinkedQueue(s: Sched, t: Tid, iv: int, i: nat)
    requires Wf(s) && iv in s.queues && i < |s.queues[iv]| && s.queues[iv][i] == t
    ensures Linked(s, t) && s.timers[t].interval == iv
  {
  }

  /** Timers that have fired stay out of the queues. */
  lemma OnceKeeps(h: History, q: History)
    requires Once(h) && q.count == h.count
    requires forall u :: Linked(q.s, u) ==> Linked(h.s, u) || Count(h, u) == 0
    requires forall u :: u in h.s.timers && h.s.timers[u].tracked ==> u in q.s.timers && q.s.timers[u].tracked
    ensures Once(q)
  {
    forall t | Count(q, t) > 0
      ensures Count(q, t) == 1 && t in q.s.timers && q.s.timers[t].tracked && !Linked(q.s, t)
    {
      assert Count(h, t) == Count(q, t);
    }
  }

  lemma AddFair(h: History, t: Tid, now: int)
    requires Fair(h) && Wf(h.s) && Legal(h, Add(t, now))
    ensures Fair(Next(h, Add(t, now))) && t !in h.s.queues[h.s.timers[t].interval]
    ensures NotBefore(h.s, h.s.queues[h.s.timers[t].interval], now)
  {
    QueueKnown(h.s, h.s.timers[t].interval);
    var was := h.s.queues[h.s.timers[t].interval];
    if was != [] {
      assert was[|was| - 1] in was;
    }
  }

  lemma AddOnce(h: History, t: Tid, now: int)
    requires Once(h) && Legal(h, Add(t, now))
    ensures Once(Next(h, Add(t, now)))
  {
    var s, q := h.s, AddTimer(h.s, t, now);
    forall u | Linked(q, u)
      ensures Linked(s, u) || Count(h, u) == 0
    {
      if u == t {
        assert Count(h, t) == 0;
      }
    }
    OnceKeeps(h, Next(h, Add(t, now)));
  }

  lemma AddKeeps(h: History, t: Tid, now: int)
    requires HistoryInv(h) && Legal(h, Add(t, now))
    ensures HistoryInv(Next(h, Add(t, now)))
  {
    var s, q := h.s, AddTimer(h.s, t, now);
    AddFair(h, t, now);
    AddOnce(h, t, now);
    QueueKnown(s, s.timers[t].interval);
    AddKeepsSorted(s, t, now);
    hide Once, Fair;
    OneQueue(s, q, s.timers[t].interval, t);
  }

  lemma RefreshQueue(h: History, t: Tid, now: int)
    requires Wf(h.s) && Sorted(h.s) && Fair(h) && Legal(h, Refresh(t, now))
    ensures var q := RefreshTimer(h.s, t, now);
            && Wf(q) && Sorted(q)
            && (forall x :: x in q.queues[h.s.timers[t].interval] <==> x in h.s.queues[h.s.timers[t].interval])
  {
    var s, q := h.s, RefreshTimer(h.s, t, now);
    var iv := s.timers[t].interval;
    var was := s.queues[iv];
    assert SortedQueue(s, was);
    WithoutKeeps(s, was, t);
    WithoutMembers(was, t);
    if t in was {
      var w := Without(was, t);
      forall i | 0 <= i < |w|
        ensures w[i] != t && w[i] in s.timers && s.timers[w[i]].arm <= now
      {
        assert w[i] in w;
        assert w[i] in was;
      }
      assert q.queues[iv] == w + [t];
    }
    assert SortedQueue(q, q.queues[iv]);
    OneQueue(s, q, iv, t);
  }

  lemma RefreshFair(h: History, t: Tid, now: int)
    requires HistoryInv(h) && Legal(h, Refresh(t, now))
    ensures Fair(Next(h, Refresh(t, now)))
  {
    var s, q := h.s, RefreshTimer(h.s, t, now);
    var iv := s.timers[t].interval;
    RefreshQueue(h, t, now);
    assert forall x :: x in q.queues[iv] ==> x in s.queues[iv];
  }

  lemma RefreshOnce(h: History, t: Tid, now: int)
    requires HistoryInv(h) && Legal(h, Refresh(t, now))
    ensures Once(Next(h, Refresh(t, now)))
  {
    RefreshQueue(h, t, now);
    var q := RefreshTimer(h.s, t, now);
    forall u | Linked(q, u)
      ensures Linked(h.s, u)
    {
      assert q.timers[u].interval == h.s.timers[u].interval;
    }
    OnceKeeps(h, Next(h, Refresh(t, now)));
  }

  lemma RefreshKeeps(h: History, t: Tid, now: int)
    requires HistoryInv(h) && Legal(h, Refresh(t, now))
    ensures HistoryInv(Next(h, Refresh(t, now)))
  {
    RefreshQueue(h, t, now);
    RefreshFair(h, t, now);
    RefreshOnce(h, t, now);
  }

  lemma CancelKeeps(h: History, t: Tid)
    requires HistoryInv(h) && Legal(h, Cancel(t))
    ensures HistoryInv(Next(h, Cancel(t)))
    ensures !Linked(Next(h, Cancel(t)).s, t)
  {
    var s, q := h.s, CancelTimer(h.s, t);
    var iv := s.timers[t].interval;
    var was := s.queues[iv];
    WithoutKeeps(s, was, t);
    WithoutMembers(was, t);
    assert q.timers == s.timers[t := s.timers[t]];
    OneQueue(s, q, iv, t);
    assert forall x :: x in q.queues[iv] ==> x in was;
    forall u | Linked(q, u)
      ensures Linked(s, u)
    {
      assert q.timers[u].interval == s.timers[u].interval;
    }
    OnceKeeps(h, Next(h, Cancel(t)));
  }

  lemma TickWf(s: Sched, now: int)
    requires Wf(s) && Sorted(s)
    ensures Wf(Tick(s, now)) && Sorted(Tick(s, now))
    ensures forall t :: Linked(Tick(s, now), t) <==> Linked(s, t) && t !in Popped(s, now)
  {
    var q := Tick(s, now);
    forall iv | iv in s.queues
      ensures SortedQueue(q, q.queues[iv])
    {
      assert SortedQueue(s, s.queues[iv]);
    }
    forall t
      ensures Linked(q, t) <==> Linked(s, t) && t !in Popped(s, now)
    {
      if t in s.timers && s.timers[t].interval in s.queues {
        var iv := s.timers[t].interval;
        var n := Lead(s, s.queues[iv], iv, now);
        if t in s.queues[iv] {
          var j :| 0 <= j < |s.queues[iv]| && s.queues[iv][j] == t;
          if j >= n {
            NotPopped(s, now, iv, j);
            assert q.queues[iv][j - n] == t;
          } else {
            assert s.queues[iv][..n][j] == t;
            assert t in s.queues[iv][..Lead(s, s.queues[iv], iv, now)];
            assert t in Popped(s, now);
          }
        }
      }
    }
  }

  /** What a tick pops was due, was not overdue at the tick before, and was linked. */
  lemma PoppedInTime(h: History, now: int, t: Tid)
    requires HistoryInv(h) && now >= h.clock && t in Popped(h.s, now)
    ensures t in h.s.timers && Linked(h.s, t) && h.s.timers[t].tracked
    ensures InTime(Firing(t, h.s.timers[t].interval, h.s.timers[t].arm, now, h.lastTick))
  {
    var s := h.s;
    var iv :| iv in s.queues && t in s.queues[iv][..Lead(s, s.queues[iv], iv, now)];
    LeadIsDue(s, s.queues[iv], iv, now);
    var k :| 0 <= k < Lead(s, s.queues[iv], iv, now) && s.queues[iv][k] == t;
    LinkedQueue(s, t, iv, k);
    assert Millis(now - s.timers[t].arm) >= iv;
  }

  lemma ExpireOnce(h: History, now: int)
    requires HistoryInv(h) && Legal(h, Expire(now))
    ensures Once(Next(h, Expire(now))) && forall f :: f in Next(h, Expire(now)).log ==> InTime(f)
  {
    var q := Next(h, Expire(now));
    TickWf(h.s, now);
    forall f | f in q.log
      ensures InTime(f)
    {
      if f !in h.log {
        PoppedInTime(h, now, f.t);
      }
    }
    forall t | Count(q, t) > 0
      ensures Count(q, t) == 1 && h.s.timers[t].tracked && !Linked(q.s, t)
    {
      if t in Popped(h.s, now) {
        PoppedInTime(h, now, t);
      }
    }
  }

  /** What a tick leaves is not due. */
  lemma RestNotDue(s: Sched, iv: int, now: int, t: Tid)
    requires Wf(s) && Sorted(s) && iv in s.queues && t in Rest(s, iv, now)
    ensures !Due(s, t, iv, now)
  {
    SortedIsFrontLoaded(s, now);
    LeadIsDue(s, s.queues[iv], iv, now);
    var n := Lead(s, s.queues[iv], iv, now);
    var i :| 0 <= i < |Rest(s, iv, now)| && Rest(s, iv, now)[i] == t;
    assert t == s.queues[iv][n + i];
  }

  lemma ExpireFair(h: History, now: int)
    requires HistoryInv(h) && Legal(h, Expire(now))
    ensures Fair(Next(h, Expire(now)))
  {
    var q := Tick(h.s, now);
    hide Wf, Sorted, Once, Lead, Due;
    forall iv, t | iv in q.queues && t in q.queues[iv] && iv > 0 && t in q.timers
      ensures now - q.timers[t].arm < iv * MS
    {
      assert q.queues[iv] == Rest(h.s, iv, now);
      RestNotDue(h.s, iv, now, t);
      DueIff(h.s, t, iv, now);
    }
  }

  lemma ExpireKeeps(h: History, now: int)
    requires HistoryInv(h) && Legal(h, Expire(now))
    ensures HistoryInv(Next(h, Expire(now)))
  {
    ExpireOnce(h, now);
    ExpireFair(h, now);
    TickWf(h.s, now);
  }

  lemma NextKeeps(h: History, e: Event)
    requires HistoryInv(h)
    ensures HistoryInv(Next(h, e))
  {
    if Legal(h, e) {
      match e
      case Add(t, now) => AddKeeps(h, t, now);
      case Refresh(t, now) => RefreshKeeps(h, t, now);
      case Cancel(t) => CancelKeeps(h, t);
      case Expire(now) => ExpireKeeps(h, now);
    }
  }

  ghost function Run(h: History, es: seq<Event>): History
    decreases |es|
  {
    if es == [] then h else Run(Next(h, es[0]), es[1..])
  }

  lemma {:induction false} RunKeeps(h: History, es: seq<Event>)
    requires HistoryInv(h)
    ensures HistoryInv(Run(h, es))
    decreases |es|
  {
    if es == [] {
    } else {
      NextKeeps(h, es[0]);
      RunKeeps(Next(h, es[0]), es[1..]);
    }
  }

  /** After any run, every queue is sorted by arm time, every timer is linked only in its own
      interval's queue, and the next tick fires exactly what a full scan would select. */
  lemma TickIsFullScan(h: History, es: seq<Event>, now: int)
    requires Initial(h)
    ensures var s := Run(h, es).s;
            Wf(s) && Sorted(s) && Popped(s, now) == Scan(s, now)
  {
    RunKeeps(h, es);
    SortedIsFrontLoaded(Run(h, es).s, now);
    TickIsScanIff(Run(h, es).s, now);
  }

  /** Over any run every timer fires at most once, never before its timeout has passed since it
      was last armed, and, with ticks at most `period` apart, less than `period` too late. */
  lemma FiresOnceAndInTime(h: History, es: seq<Event>, period: int)
    requires Initial(h)
    ensures var q := Run(h, es);
            && (forall t :: Count(q, t) <= 1)
            && (forall f :: f in q.log && f.interval >= 0 ==> f.at - f.arm >= f.interval * MS)
            && (forall f :: f in q.log && f.interval > 0 && f.at - f.previous <= period ==>
                  f.at - f.arm < f.interval * MS + period)
  {
    RunKeeps(h, es);
    var q := Run(h, es);
    assert forall f :: f in q.log ==> InTime(f);
  }

  /** A timer that was cancelled, or has fired, never fires again, not even if it is refreshed. */
  lemma {:induction false} NeverAgain(h: History, es: seq<Event>, t: Tid)
    requires HistoryInv(h) && t in h.s.timers && h.s.timers[t].tracked && !Linked(h.s, t)
    ensures Count(Run(h, es), t) == Count(h, t) && !Linked(Run(h, es).s, t)
    decreases |es|
  {
    if es == [] {
    } else {
      var e := es[0];
      var q := Next(h, e);
      NextKeeps(h, e);
      if Legal(h, e) {
        StaysOut(h, e, t);
      }
      NeverAgain(q, es[1..], t);
    }
  }

  lemma StaysOut(h: History, e: Event, t: Tid)
    requires HistoryInv(h) && Legal(h, e) && t in h.s.timers && h.s.timers[t].tracked && !Linked(h.s, t)
    ensures var q := Next(h, e);
            Count(q, t) == Count(h, t) && t in q.s.timers && q.s.timers[t].tracked && !Linked(q.s, t)
  {
    match e
    case Add(_, _) =>
    case Refresh(u, _) => WithoutMembers(h.s.queues[h.s.timers[u].interval], u);
    case Cancel(u) => WithoutMembers(h.s.queues[h.s.timers[u].interval], u);
    case Expire(now) =>
      TickWf(h.s, now);
      if t in Popped(h.s, now) {
        PoppedInTime(h, now, t);
      }
  }

  // ----- no timer is lost -----

  /** Adding links the timer added and no other; none is unlinked. */
  lemma AddLinks(s: Sched, t: Tid, now: int, u: Tid)
    requires Known(s, t)
    ensures Linked(AddTimer(s, t, now), u) <==> Linked(s, u) || u == t
  {
  }

  /** Refreshing links and unlinks nothing. */
  lemma RefreshLinks(s: Sched, t: Tid, now: int, u: Tid)
    requires Wf(s) && Known(s, t)
    ensures Linked(RefreshTimer(s, t, now), u) <==> Linked(s, u)
  {
    QueueKnown(s, s.timers[t].interval);
    WithoutMembers(s.queues[s.timers[t].interval], t);
    hide Wf;
  }

  /** Cancelling unlinks the timer cancelled and no other. */
  lemma CancelLinks(s: Sched, t: Tid, u: Tid)
    requires Wf(s) && Known(s, t)
    ensures Linked(CancelTimer(s, t), u) <==> Linked(s, u) && u != t
  {
    QueueKnown(s, s.timers[t].interval);
    WithoutMembers(s.queues[s.timers[t].interval], t);
    hide Wf;
  }

  /** Added, and neither cancelled nor fired since. */
  predicate Awaited(h: History, t: Tid) { t in h.armed && t !in h.cancelled && Count(h, t) == 0 }

  /** The queues hold exactly the timers that are awaited, and each timer knows when it was armed. */
  ghost predicate Complete(h: History) {
    && (forall t :: Linked(h.s, t) <==> Awaited(h, t))
    && h.cancelled <= h.armed.Keys
    && (forall t :: t in h.armed <==> Known(h.s, t) && h.s.timers[t].tracked)
    && (forall t :: t in h.armed && t in h.s.timers ==> h.s.timers[t].arm == h.armed[t])
  }

  lemma AddComplete(h: History, t: Tid, now: int)
    requires Once(h) && Complete(h) && Legal(h, Add(t, now))
    ensures Complete(Next(h, Add(t, now)))
  {
    var q := Next(h, Add(t, now));
    assert Count(h, t) == 0 && t !in h.cancelled;
    forall u
      ensures Linked(q.s, u) <==> Awaited(q, u)
    {
      AddLinks(h.s, t, now, u);
      assert Linked(h.s, u) <==> Awaited(h, u);
    }
  }

  lemma RefreshComplete(h: History, t: Tid, now: int)
    requires Wf(h.s) && Complete(h) && Legal(h, Refresh(t, now))
    ensures Complete(Next(h, Refresh(t, now)))
  {
    var q := Next(h, Refresh(t, now));
    hide Wf;
    forall u
      ensures Linked(q.s, u) <==> Awaited(q, u)
    {
      RefreshLinks(h.s, t, now, u);
      assert Linked(h.s, u) <==> Awaited(h, u);
    }
  }

  lemma CancelComplete(h: History, t: Tid)
    requires Wf(h.s) && Complete(h) && Legal(h, Cancel(t))
    ensures Complete(Next(h, Cancel(t)))
  {
    var q := Next(h, Cancel(t));
    hide Wf;
    forall u
      ensures Linked(q.s, u) <==> Awaited(q, u)
    {
      CancelLinks(h.s, t, u);
      assert Linked(h.s, u) <==> Awaited(h, u);
    }
  }

  lemma ExpireComplete(h: History, now: int)
    requires HistoryInv(h) && Complete(h) && Legal(h, Expire(now))
    ensures Complete(Next(h, Expire(now)))
  {
    var q := Next(h, Expire(now));
    TickWf(h.s, now);
    forall u
      ensures Linked(q.s, u) <==> Awaited(q, u)
    {
      assert Linked(h.s, u) <==> Awaited(h, u);
      if u in Popped(h.s, now) {
        PoppedInTime(h, now, u);
      }
    }
  }

  lemma NextComplete(h: History, e: Event)
    requires HistoryInv(h) && Complete(h)
    ensures Complete(Next(h, e))
  {
    hide Wf, Once, Complete;
    if Legal(h, e) {
      match e
      case Add(t, now) => AddComplete(h, t, now);
      case Refresh(t, now) => RefreshComplete(h, t, now);
      case Cancel(t) => CancelComplete(h, t);
      case Expire(now) => ExpireComplete(h, now);
    }
  }

  lemma {:induction false} RunComplete(h: History, es: seq<Event>)
    requires HistoryInv(h) && Complete(h)
    ensures Complete(Run(h, es))
    decreases |es|
  {
    hide Wf, Once, Complete, Next, Legal;
    if es != [] {
      NextKeeps(h, es[0]);
      NextComplete(h, es[0]);
      RunComplete(Next(h, es[0]), es[1..]);
    }
  }

  /** Which interval a timer has never changes. */
  lemma {:induction false} RunIntervals(h: History, es: seq<Event>, t: Tid)
    requires t in h.s.timers
    ensures t in Run(h, es).s.timers && Run(h, es).s.timers[t].interval == h.s.timers[t].interval
    decreases |es|
  {
    if es != [] {
      RunIntervals(Next(h, es[0]), es[1..], t);
    }
  }

  lemma TickPops(h: History, now: int, t: Tid)
    requires HistoryInv(h) && Complete(h) && t in h.s.timers
    ensures t in Popped(h.s, now) <==> Awaited(h, t) && Millis(now - h.armed[t]) >= h.s.timers[t].interval
  {
    SortedIsFrontLoaded(h.s, now);
    TickIsScanIff(h.s, now);
    assert t in Scan(h.s, now) <==> Linked(h.s, t) && Due(h.s, t, h.s.timers[t].interval, now) by {
      ScanIff(h.s, now, t);
    }
  }

  lemma ScanIff(s: Sched, now: int, t: Tid)
    requires Wf(s) && t in s.timers
    ensures t in Scan(s, now) <==> Linked(s, t) && Due(s, t, s.timers[t].interval, now)
  {
  }

  /** Every timer that should fire does: after any run a tick fires a timer exactly if it was
      added, has neither been cancelled nor fired, and its age since it was last added or
      refreshed has reached its interval; so it fires at the first such tick, and only there. */
  lemma FiresExactlyWhenDue(h: History, es: seq<Event>, now: int, t: Tid)
    requires Initial(h) && t in h.s.timers && now >= Run(h, es).clock
    ensures var before := Run(h, es);
            var after := Next(before, Expire(now));
            var fires := Awaited(before, t) && Millis(now - before.armed[t]) >= h.s.timers[t].interval;
            && Count(after, t) == Count(before, t) + (if fires then 1 else 0)
            && (fires ==> Firing(t, h.s.timers[t].interval, before.armed[t], now, before.lastTick) in after.log)
  {
    hide HistoryInv, Complete, Run, Next;
    InitialKeeps(h);
    RunKeeps(h, es);
    RunComplete(h, es);
    RunIntervals(h, es, t);
    ExpireFires(Run(h, es), now, t);
  }

  lemma InitialKeeps(h: History)
    requires Initial(h)
    ensures HistoryInv(h) && Complete(h)
  {
  }

  lemma ExpireFires(h: History, now: int, t: Tid)
    requires HistoryInv(h) && Complete(h) && t in h.s.timers && now >= h.clock
    ensures var after := Next(h, Expire(now));
            var fires := Awaited(h, t) && Millis(now - h.armed[t]) >= h.s.timers[t].interval;
            && Count(after, t) == Count(h, t) + (if fires then 1 else 0)
            && (fires ==> Firing(t, h.s.timers[t].interval, h.armed[t], now, h.lastTick) in after.log)
  {
    hide HistoryInv, Popped;
    TickPops(h, now, t);
  }

  // ----- the reactor object -----

  class TimeoutReactor {
    var queues: map<int, seq<Tid>>
    var timers: map<Tid, Timer>

    ghost function View(): Sched
      reads this
    {
      Sched(queues, timers)
    }

    constructor (possibleTimeouts: set<int>, known: map<Tid, Timer>)
      ensures timers == known && queues.Keys == possibleTimeouts
      ensures forall iv :: iv in queues ==> queues[iv] == []
    {
      queues := map iv | iv in possibleTimeouts :: [];
      timers := known;
    }

    method Add(t: Tid, now: int)
      requires t in timers && timers[t].interval in queues && !timers[t].tracked
      modifies this
      ensures View() == AddTimer(old(View()), t, now)
    {
      timers := timers[t := timers[t].(tracked := true, arm := now)];
      var iv := timers[t].interval;
      queues := queues[iv := queues[iv] + [t]];
    }

    method Refresh(t: Tid, now: int)
      requires t in timers && timers[t].interval in queues && timers[t].tracked
      modifies this
      ensures View() == RefreshTimer(old(View()), t, now)
    {
      timers := timers[t := timers[t].(arm := now)];
      var iv := timers[t].interval;
      if t !in queues[iv] {
        return;
      }
      queues := queues[iv := Without(queues[iv], t)];
      queues := queues[iv := queues[iv] + [t]];
    }

    method Cancel(t: Tid)
      requires t in timers && timers[t].interval in queues && timers[t].tracked
      modifies this
      ensures View() == CancelTimer(old(View()), t)
    {
      var iv := timers[t].interval;
      if t !in queues[iv] {
        return;
      }
      queues := queues[iv := Without(queues[iv], t)];
    }

    /** The inner loop: triggers and pops from the front of one queue, holding its lock. The
        trigger deactivates a reactor; if only the poller's table referred to it (`doomed`), it is
        destroyed with its timer, whose destructor waits for that lock in `cancel`, for ever. */
    method ExpireQueue(iv: int, now: int, doomed: set<Tid>) returns (fired: seq<Tid>, hung: bool)
      requires iv in queues
      modifies this`queues
      ensures var q := old(queues[iv]);
              var n := Lead(old(View()), q, iv, now);
              && (hung <==> exists i :: 0 <= i < n && q[i] in doomed)
              && (!hung ==> fired == q[..n] && queues == old(queues)[iv := q[n..]])
              && (hung ==> fired != [] && fired <= q[..n] && fired[|fired| - 1] in doomed
                           && queues == old(queues)[iv := q[|fired| - 1..]])
    {
      fired, hung := [], false;
      var queue := queues[iv];
      ghost var q, was := queue, View();
      while queue != []
        invariant |fired| <= |q| && fired == q[..|fired|] && queue == q[|fired|..]
        invariant forall i :: 0 <= i < |fired| ==> Due(was, q[i], iv, now) && q[i] !in doomed
        decreases |queue|
      {
        var t := queue[0];
        assert t == q[|fired|];
        if !(t in timers && Millis(now - timers[t].arm) >= iv) {
          break;
        }
        fired := fired + [t];
        if t in doomed {
          LeadIsDue(was, q, iv, now);
          queues := queues[iv := queue];
          return fired, true;
        }
        queue := queue[1..];
      }
      LeadIsDue(was, q, iv, now);
      queues := queues[iv := queue];
    }

    /** `process`; `order` is the order in which the hash map is traversed. It comes back, and
        asks for the next tick, exactly if no timer it fires is doomed; then it has done all
        that a tick does. */
    method Process(now: int, order: seq<int>, doomed: set<Tid>) returns (fired: seq<Tid>, returned: bool)
      requires Wf(View()) && Traverses(order, queues)
      modifies this`queues
      ensures returned <==> Popped(old(View()), now) !! doomed
      ensures returned ==> View() == Tick(old(View()), now) && forall t :: t in fired <==> t in Popped(old(View()), now)
      ensures NoDup(fired) && forall t :: t in fired ==> t in Popped(old(View()), now)
    {
      fired := [];
      ghost var was := View();
      ghost var done: set<int> := {};
      assert PoppedFrom(was, now, done) == {};
      hide PoppedFrom, Lead, Wf, Tick;
      for k := 0 to |order|
        invariant queues.Keys == was.queues.Keys && timers == was.timers && done <= was.queues.Keys
        invariant forall iv :: iv in done <==> iv in order[..k]
        invariant forall iv :: iv in queues ==> queues[iv] == if iv in done then Rest(was, iv, now) else was.queues[iv]
        invariant forall t :: t in fired <==> t in PoppedFrom(was, now, done)
        invariant NoDup(fired) && forall t :: t in fired ==> t !in doomed
      {
        var iv := order[k];
        assert iv in order && iv !in order[..k];
        LeadSame(View(), was, was.queues[iv], iv, now);
        ghost var all := was.queues[iv][..Lead(was, was.queues[iv], iv, now)];
        var popped, hung := ExpireQueue(iv, now, doomed);
        FreshPops(was, fired, all, iv, now, done);
        assert popped <= all;
        if hung {
          HungPops(was, fired, popped, all, iv, now, done, doomed);
          return fired + popped, false;
        }
        fired := fired + popped;
        done := done + {iv};
      }
      assert order[..|order|] == order;
      AllDone(was, queues, now, order, done);
      returned := true;
    }
  }

  lemma AllDone(s: Sched, queues: map<int, seq<Tid>>, now: int, order: seq<int>, done: set<int>)
    requires Traverses(order, s.queues) && (forall iv :: iv in done <==> iv in order) && queues.Keys == s.queues.Keys
    requires forall iv :: iv in queues ==> queues[iv] == if iv in done then Rest(s, iv, now) else s.queues[iv]
    ensures queues == Tick(s, now).queues && done == s.queues.Keys
  {
    assert forall iv :: iv in done <==> iv in s.queues;
  }

  /** What a tick has fired when it hangs: some of what it should, the last of them doomed. */
  lemma HungPops(s: Sched, fired: seq<Tid>, popped: seq<Tid>, all: seq<Tid>, iv: int, now: int, done: set<int>, doomed: set<Tid>)
    requires iv in s.queues && done <= s.queues.Keys && popped <= all && popped != [] && popped[|popped| - 1] in doomed
    requires NoDup(fired + all) && (forall t :: t in fired + all <==> t in PoppedFrom(s, now, done + {iv}))
    ensures NoDup(fired + popped) && (forall t :: t in fired + popped ==> t in Popped(s, now))
    ensures !(Popped(s, now) !! doomed)
  {
    forall t | t in fired + popped
      ensures t in Popped(s, now)
    {
      assert t in fired + all;
      assert t in PoppedFrom(s, now, done + {iv});
    }
    assert fired + popped <= fired + all;
    assert popped[|popped| - 1] in fired + popped;
  }

  ghost predicate Traverses(order: seq<int>, queues: map<int, seq<Tid>>) {
    && (forall iv :: iv in order <==> iv in queues)
    && (forall i, j :: 0 <= i < j < |order| ==> order[i] != order[j])
  }

  /** What a tick leaves in a queue. */
  function Rest(s: Sched, iv: int, now: int): seq<Tid>
    requires iv in s.queues
  {
    s.queues[iv][Lead(s, s.queues[iv], iv, now)..]
  }

  /** Whether a timer is due does not depend on the queues. */
  lemma {:induction false} LeadSame(s: Sched, q: Sched, queue: seq<Tid>, iv: int, now: int)
    requires s.timers == q.timers
    ensures Lead(s, queue, iv, now) == Lead(q, queue, iv, now)
  {
    if queue == [] {
    } else {
      LeadSame(s, q, queue[1..], iv, now);
    }
  }

  /** One more queue: nothing fires twice, and nothing else fires. */
  lemma FreshPops(s: Sched, fired: seq<Tid>, popped: seq<Tid>, iv: int, now: int, done: set<int>)
    requires Wf(s) && iv in s.queues && iv !in done && popped == s.queues[iv][..Lead(s, s.queues[iv], iv, now)]
    requires NoDup(fired) && (forall t :: t in fired <==> t in PoppedFrom(s, now, done))
    ensures NoDup(fired + popped)
    ensures forall t :: t in fired + popped <==> t in PoppedFrom(s, now, done + {iv})
  {
    forall i, j | 0 <= i < j < |fired + popped|
      ensures (fired + popped)[i] != (fired + popped)[j]
    {
      if i < |fired| <= j {
        assert fired[i] in fired;
        var other :| other in done && other in s.queues && fired[i] in s.queues[other][..Lead(s, s.queues[other], other, now)];
        assert s.timers[fired[i]].interval == other;
        assert s.timers[s.queues[iv][j - |fired|]].interval == iv;
      }
    }
  }
}
