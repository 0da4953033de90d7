/** What a reactor asks of the poller and does to its descriptors, kept as a log in the order in
    which the code makes the calls, and the discipline such a log may or may not follow. */
module Logs {
  import opened Wrappers

  /** A reactor's descriptors: `srcSock` and `dstSock` of a StreamReactor, the `sock` of a
      StickReactor, or a bare number whose owner is another reactor. */
  datatype Side = Src | Dst | Sock | Raw

  datatype Dir = In | Out

  /** `Fired`: the event asked for has come. `Add` and `Remove` are calls of the poller, `Reset`
      closes a descriptor, `Quit` is `deactivate`, which removes all the descriptors owned. */
  datatype Action = Fired | Add(side: Side, dir: Dir) | Remove(side: Side) | Reset(side: Side) | Quit

  /** What can be told from a log: the descriptor an event is asked for on, those removed from
      the poller since they were last added, and whether the discipline was kept. */
  datatype Record = Record(armed: Option<Side>, removed: set<Side>, ok: bool)

  const NEW_RECORD := Record(None, {}, true)

  /** The discipline: ask for no event while another is due, close nothing that was not removed
      before, and do not deactivate while a borrowed number is armed. */
  function Judge(m: Record, a: Action): Record {
    match a
    case Fired => m.(armed := None)
    case Add(side, _) => Record(Some(side), m.removed - {side}, m.ok && m.armed.None?)
    case Remove(side) => m.(armed := if m.armed == Some(side) then None else m.armed, removed := m.removed + {side})
    case Reset(side) => m.(ok := m.ok && side in m.removed)
    case Quit => Record(None, m.removed + {Src, Dst, Sock}, m.ok && m.armed != Some(Raw))
  }

  function Judged(acts: seq<Action>): Record
    decreases |acts|
  {
    if acts == [] then NEW_RECORD else Judge(Judged(acts[..|acts| - 1]), acts[|acts| - 1])
  }

  predicate Obeys(acts: seq<Action>) { Judged(acts).ok }

  /** How many events are asked for. */
  function Adds(acts: seq<Action>): nat
    decreases |acts|
  {
    if acts == [] then 0 else Adds(acts[..|acts| - 1]) + (if acts[|acts| - 1].Add? then 1 else 0)
  }

  lemma JudgedNext(acts: seq<Action>, a: Action)
    ensures Judged(acts + [a]) == Judge(Judged(acts), a)
    ensures Adds(acts + [a]) == Adds(acts) + if a.Add? then 1 else 0
  {
    assert (acts + [a])[..|acts|] == acts;
  }

  /** Once broken, the discipline stays broken: it holds of every prefix of a log that keeps it. */
  lemma {:induction false} ObeysPrefix(acts: seq<Action>, more: seq<Action>)
    requires acts <= more && Obeys(more)
    ensures Obeys(acts)
    decreases |more|
  {
    if acts == more {
    } else {
      ObeysPrefix(acts, more[..|more| - 1]);
    }
  }

  /** Only descriptors of the reactor's own. */
  ghost predicate OwnOnly(acts: seq<Action>) { forall dir :: Add(Raw, dir) !in acts }

  lemma {:induction false} NeverRaw(acts: seq<Action>)
    requires OwnOnly(acts)
    ensures Judged(acts).armed != Some(Raw)
    decreases |acts|
  {
    if acts != [] {
      NeverRaw(acts[..|acts| - 1]);
    }
  }

  /** Deactivation by somebody else keeps the discipline at any time. */
  lemma QuitObeys(acts: seq<Action>)
    requires Obeys(acts) && OwnOnly(acts)
    ensures Obeys(acts + [Quit]) && OwnOnly(acts + [Quit])
  {
    NeverRaw(acts);
    JudgedNext(acts, Quit);
  }

  /** Both members of a StreamReactor are closed after the destructor removed them. */
  function Teardown(acts: seq<Action>): seq<Action> { acts + [Remove(Src)] + [Remove(Dst)] + [Reset(Dst)] + [Reset(Src)] }

  /** The same for the only descriptor of a StickReactor. */
  function StickTeardown(acts: seq<Action>): seq<Action> { acts + [Remove(Sock)] + [Reset(Sock)] }

  /** Destruction closes only what it has removed. */
  lemma TeardownObeys(acts: seq<Action>)
    requires Obeys(acts)
    ensures Obeys(Teardown(acts)) && Obeys(StickTeardown(acts))
    ensures Judged(acts).armed in {None, Some(Src), Some(Dst)} ==> Judged(Teardown(acts)).armed.None?
  {
    JudgedNext(acts, Remove(Src));
    JudgedNext(acts + [Remove(Src)], Remove(Dst));
    JudgedNext(acts + [Remove(Src)] + [Remove(Dst)], Reset(Dst));
    JudgedNext(acts + [Remove(Src)] + [Remove(Dst)] + [Reset(Dst)], Reset(Src));
    JudgedNext(acts, Remove(Sock));
    JudgedNext(acts + [Remove(Sock)], Reset(Sock));
  }
}
