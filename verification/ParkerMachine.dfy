/**
 * The thread parker as an interleaving machine: one thread that parks, any number that unpark,
 * one step per access to the atomic word, to the mutex or to the condition variable.
 */
module ParkerMachine {
  import opened Wrappers

  const EMPTY: nat := 0
  const PARKED: nat := 1
  const NOTIFIED: nat := 2

  /** The argument of `park_internal`: none, a zero duration, or a longer one. */
  datatype Timeout = Forever | Zero | Timed

  /** What the parking thread does next; it holds the mutex from `Flag` to `Wait`, at `Recheck` and at `Unlock`. */
  datatype ParkPc =
    | Outside
    | Take(t: Timeout)
    | Lock(t: Timeout)
    | Flag(t: Timeout)
    | Consume(t: Timeout)
    | Wait(t: Timeout)
    | Asleep(t: Timeout)
    | Woken(t: Timeout)
    | Recheck(t: Timeout)
    | Unlock(t: Timeout)

  datatype UnparkPc = Resting | Swap | Relock | Unlocking | NotifyOne

  /** Who holds the mutex. */
  datatype Owner = Nobody | Sleeper | Unparker(u: nat)

  /**
   * The first four fields are the parker and its callers.  The others are history: `swaps`
   * counts the swaps of `unpark`, `created` those that made a token where there was none,
   * `consumed` the tokens taken, `took` those taken by the call in progress; `finished` lists
   * each finished call with the tokens it took.  `waker` is the thread whose swap last found
   * the word at PARKED, until its `notify_one`.  `fault` is set by a panic.
   */
  datatype State = State(
    word: nat, owner: Owner, pc: ParkPc, unparkers: map<nat, UnparkPc>,
    swaps: nat, created: nat, consumed: nat, took: nat, finished: seq<(Timeout, nat)>,
    waker: Option<nat>, fault: bool)

  /** `Wake` is a spurious wake-up or, for a timed wait, the end of the time. */
  datatype Action = ParkCall(t: Timeout) | ParkStep | Wake | UnparkCall(u: nat) | UnparkStep(u: nat)

  predicate Enabled(s: State, a: Action) {
    && !s.fault
    && match a
       case ParkCall(_) => s.pc == Outside
       case ParkStep => s.pc != Outside && !s.pc.Asleep? && (s.pc.Lock? || s.pc.Woken? ==> s.owner == Nobody)
       case Wake => s.pc.Asleep?
       case UnparkCall(u) => u in s.unparkers && s.unparkers[u] == Resting
       case UnparkStep(u) =>
         u in s.unparkers && s.unparkers[u] != Resting && (s.unparkers[u] == Relock ==> s.owner == Nobody)
  }

  function Fault(s: State): State { s.(fault := true) }

  function SetUnparker(s: State, u: nat, pc: UnparkPc): State { s.(unparkers := s.unparkers[u := pc]) }

  /** Taking the token, whether by CAS or by swap. */
  function TakeToken(s: State): State {
    s.(word := EMPTY, consumed := s.consumed + 1, took := s.took + 1)
  }

  function Return(s: State, t: Timeout): State {
    s.(pc := Outside, finished := s.finished + [(t, s.took)])
  }

  function ParkNext(s: State): State {
    match s.pc
    case Outside => s
    case Take(t) =>
      if s.word == NOTIFIED then Return(TakeToken(s), t)
      else if t == Zero then Return(s, t)
      else s.(pc := Lock(t))
    case Lock(t) => s.(pc := Flag(t), owner := Sleeper)
    case Flag(t) =>
      if s.word == EMPTY then s.(word := PARKED, pc := Wait(t))
      else if s.word == NOTIFIED then s.(pc := Consume(t))
      else Fault(s)
    case Consume(t) => if s.word == NOTIFIED then TakeToken(s).(pc := Unlock(t)) else Fault(s)
    case Wait(t) => s.(pc := Asleep(t), owner := Nobody)
    case Asleep(_) => s
    case Woken(t) => s.(pc := Recheck(t), owner := Sleeper)
    case Recheck(t) =>
      if t == Forever then
        (if s.word == NOTIFIED then TakeToken(s).(pc := Unlock(t)) else s.(pc := Wait(t)))
      else if s.word == NOTIFIED then TakeToken(s).(pc := Unlock(t))
      else if s.word == PARKED then s.(word := EMPTY, pc := Unlock(t))
      else Fault(s)
    case Unlock(t) => Return(s.(owner := Nobody), t)
  }

  function UnparkNext(s: State, u: nat): State
    requires u in s.unparkers
  {
    match s.unparkers[u]
    case Resting => s
    case Swap =>
      var s1 := s.(word := NOTIFIED, swaps := s.swaps + 1);
      if s.word == EMPTY then SetUnparker(s1, u, Resting).(created := s.created + 1)
      else if s.word == NOTIFIED then SetUnparker(s1, u, Resting)
      else if s.word == PARKED then SetUnparker(s1, u, Relock).(created := s.created + 1, waker := Some(u))
      else Fault(s1)
    case Relock => SetUnparker(s, u, Unlocking).(owner := Unparker(u))
    case Unlocking => SetUnparker(s, u, NotifyOne).(owner := Nobody)
    case NotifyOne =>
      SetUnparker(s, u, Resting).(
        pc := if s.pc.Asleep? then Woken(s.pc.t) else s.pc,
        waker := if s.waker == Some(u) then None else s.waker)
  }

  function Next(s: State, a: Action): State
    requires Enabled(s, a)
  {
    match a
    case ParkCall(t) => s.(pc := Take(t), took := 0)
    case ParkStep => ParkNext(s)
    case Wake => s.(pc := Woken(s.pc.t))
    case UnparkCall(u) => SetUnparker(s, u, Swap)
    case UnparkStep(u) => UnparkNext(s, u)
  }

  /** `Parker::new`, with the threads `us` that may call `unpark`. */
  function Init(us: set<nat>): State {
    State(EMPTY, Nobody, Outside, map u | u in us :: Resting, 0, 0, 0, 0, [], None, false)
  }

  /** The run of a list of actions; those not enabled when their turn comes do nothing. */
  function Exec(s: State, acts: seq<Action>): State
    decreases |acts|
  {
    if acts == [] then s
    else Exec(if Enabled(s, acts[0]) then Next(s, acts[0]) else s, acts[1..])
  }
}
