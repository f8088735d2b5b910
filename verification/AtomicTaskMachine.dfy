/**
 * `AtomicTask` as an interleaving machine: any number of threads, each of which may register
 * (if it is a consumer) or notify, one step per access to the state word or to the task cell.
 *
 * Around it stands the client protocol that the cell is made for: a notifier leaves work for
 * the consumer before it calls `notify`; a consumer registers, then looks for work, takes some
 * if there is any, and otherwise goes to sleep until it is notified.  This goes on for any
 * number of rounds.
 */
module AtomicTaskMachine {
  import opened Wrappers

  const WAITING: nat := 0
  const REGISTERING: nat := 1
  const NOTIFYING: nat := 2

  function FetchOrNotifying(word: nat): nat { if word / 2 % 2 == 1 then word else word + NOTIFYING }

  function FetchAndNotNotifying(word: nat): nat { if word / 2 % 2 == 1 then word - NOTIFYING else word }

  /** A task handle: each `register_task` call brings one of its own. */
  type Task = nat

  /**
   * What a thread does next.  `Calling` is the call of `Task::notify` on the handle it holds;
   * `own` says that the handle is that of its own `register_task`.  The argument of
   * `RegRelease` and `RegTake` is history: the handle is in the cell.
   */
  datatype Pc =
    | Resting
    | RegCas(t: Task)
    | RegStore(t: Task)
    | RegRelease(t: Task)
    | RegTake(t: Task)
    | RegSwap(t: Task)
    | FetchOr
    | NotTake
    | NotRelease(got: Option<Task>)
    | Calling(t: Task, own: bool)

  /** Where a handle is. */
  datatype Place = Hand(i: nat) | InCell | Replaced | Dropped | Notified

  /**
   * `word` and `cell` are the fields of `AtomicTask`; `pending` is the work that the application
   * has left for the consumer (a flag, if it is all taken at once), `looked` the handles
   * registered before its last look, and `asleep` the handle whose notification it waits for.
   * The others are history:
   * the thread that holds the lock on the cell, what became of each handle, the handles whose
   * register call has returned, those of them that were followed by a `fetch_or` of `notify`,
   * and the thread that left the first of the pending work.  `fault` is set by a failed assertion or `unwrap`.
   */
  datatype State = State(
    word: nat, cell: Option<Task>, threads: map<nat, Pc>, consumers: set<nat>, issued: nat,
    pending: nat, looked: nat, asleep: Option<Task>,
    owner: Option<nat>, home: map<Task, Place>,
    notified: multiset<Task>, replaced: multiset<Task>, dropped: multiset<Task>,
    completed: set<Task>, late: set<Task>, raiser: Option<nat>, fault: bool)

  datatype Action = Register(i: nat) | Notify(i: nat) | Step(i: nat) | Check(i: nat, take: nat) | Rouse

  predicate Enabled(s: State, a: Action) {
    && !s.fault
    && match a
       case Register(i) => i in s.threads && s.threads[i] == Resting && i in s.consumers && s.asleep == None
       case Notify(i) => i in s.threads && s.threads[i] == Resting
       case Step(i) => i in s.threads && s.threads[i] != Resting
       case Check(i, take) =>
         && i in s.threads && s.threads[i] == Resting && s.consumers == {i}
         && s.asleep == None && s.issued > s.looked
         && take <= s.pending && (s.pending > 0 ==> take > 0)
       case Rouse => s.asleep.Some? && s.asleep.value in s.notified
  }

  function Fault(s: State): State { s.(fault := true) }

  function RegisterStep(s: State, i: nat): State
    requires i in s.threads && Registering(s.threads[i])
  {
    match s.threads[i]
    case RegCas(t) =>
      if s.word == WAITING then
        s.(threads := s.threads[i := RegStore(t)], word := REGISTERING, owner := Some(i))
      else if s.word == NOTIFYING then s.(threads := s.threads[i := Calling(t, true)])
      else if s.word == REGISTERING || s.word == REGISTERING + NOTIFYING then
        s.(threads := s.threads[i := Resting], home := s.home[t := Dropped],
           dropped := s.dropped + multiset{t}, completed := s.completed + {t})
      else Fault(s)
    case RegStore(t) =>
      if s.cell.None? then
        s.(threads := s.threads[i := RegRelease(t)], cell := Some(t), home := s.home[t := InCell])
      else
        s.(threads := s.threads[i := RegRelease(t)], cell := Some(t),
           home := s.home[s.cell.value := Replaced][t := InCell], replaced := s.replaced + multiset{s.cell.value})
    case RegRelease(t) =>
      if s.word == REGISTERING then
        s.(threads := s.threads[i := Resting], word := WAITING, owner := None, completed := s.completed + {t})
      else if s.word == REGISTERING + NOTIFYING then s.(threads := s.threads[i := RegTake(t)])
      else Fault(s)
    case RegTake(_) =>
      if s.cell.None? then Fault(s)
      else
        s.(threads := s.threads[i := RegSwap(s.cell.value)], cell := None, home := s.home[s.cell.value := Hand(i)])
    case RegSwap(t) => s.(threads := s.threads[i := Calling(t, true)], word := WAITING, owner := None)
  }

  function NotifyStep(s: State, i: nat): State
    requires i in s.threads && !Registering(s.threads[i])
  {
    match s.threads[i]
    case FetchOr =>
      if s.word == WAITING then
        s.(threads := s.threads[i := NotTake], word := FetchOrNotifying(s.word),
           late := s.late + s.completed, owner := Some(i))
      else if s.word <= 3 then
        s.(threads := s.threads[i := Resting], word := FetchOrNotifying(s.word), late := s.late + s.completed)
      else Fault(s)
    case NotTake =>
      if s.cell.None? then s.(threads := s.threads[i := NotRelease(None)])
      else
        s.(threads := s.threads[i := NotRelease(s.cell)], cell := None, home := s.home[s.cell.value := Hand(i)])
    case NotRelease(got) =>
      s.(threads := s.threads[i := if got.Some? then Calling(got.value, false) else Resting],
         word := FetchAndNotNotifying(s.word), owner := None)
    case Calling(t, own) =>
      s.(threads := s.threads[i := Resting], home := s.home[t := Notified], notified := s.notified + multiset{t},
         completed := if own then s.completed + {t} else s.completed)
    case Resting => s
  }

  predicate Registering(pc: Pc) {
    pc.RegCas? || pc.RegStore? || pc.RegRelease? || pc.RegTake? || pc.RegSwap?
  }

  function Next(s: State, a: Action): State
    requires Enabled(s, a)
  {
    match a
    case Register(i) =>
      s.(threads := s.threads[i := RegCas(s.issued)], home := s.home[s.issued := Hand(i)], issued := s.issued + 1)
    case Notify(i) =>
      s.(threads := s.threads[i := FetchOr], pending := s.pending + 1,
         raiser := if s.pending > 0 then s.raiser else Some(i))
    case Step(i) => if Registering(s.threads[i]) then RegisterStep(s, i) else NotifyStep(s, i)
    case Check(_, take) =>
      if s.pending > 0 then s.(pending := s.pending - take, looked := s.issued)
      else s.(asleep := Some(s.issued - 1), looked := s.issued)
    case Rouse => s.(asleep := None)
  }

  /** `AtomicTask::new`, with threads `ts` of which `cs` register. */
  function Init(ts: set<nat>, cs: set<nat>): State {
    State(WAITING, None, map i | i in ts :: Resting, cs, 0, 0, 0, None, None, map[],
          multiset{}, multiset{}, multiset{}, {}, {}, None, false)
  }

  /** The run of a list of actions; those not enabled when their turn comes do nothing. */
  function Exec(s: State, acts: seq<Action>): State
    decreases |acts|
  {
    if acts == [] then s
    else Exec(if Enabled(s, acts[0]) then Next(s, acts[0]) else s, acts[1..])
  }
}
