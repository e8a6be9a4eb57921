/** Log sessions as interleaved steps of subscriptions, releases, expiry, shutdown and the CLIs themselves. */
module LogSessionSteps {
  import opened Wrappers

  const CAPACITY := 2

  /** A subscription names the call that created it; its stream, once registered, is that call's CLI. */
  datatype Entry = Entry(owner: string, token: nat, streaming: bool)

  /**
   * One call of subscribe. Only a validating call can be dropped: from the closing check on it runs
   * without waiting. A leaving call has its result but has not yet signalled its completion.
   */
  datatype Phase = Validating | Cleared | Failed | Spawned | Leaving | Done

  datatype Task = Task(id: string, closing: bool, phase: Phase)

  /** One call of unsubscribe, from the entry it saw to its result. */
  datatype WaiterPhase = Waiting | Ready | Closing | Closed | Ended(ok: bool)

  datatype Waiter = Waiter(id: string, token: nat, duringShutdown: bool, phase: WaiterPhase)

  /** One call of shutdown, with the entries it still has to release. */
  datatype Closer = Closer(left: set<string>, failed: bool, returned: bool)

  datatype Sessions = Sessions(
    entries: map<string, Entry>,
    shuttingDown: bool,
    tasks: map<nat, Task>,
    clis: map<nat, bool>,
    waiters: map<nat, Waiter>,
    closers: map<nat, Closer>)

  predicate Started(s: Sessions, token: nat) { token in s.tasks && s.tasks[token].phase == Done }

  predicate IsClosing(s: Sessions, e: Entry) { e.token in s.tasks && s.tasks[e.token].closing }

  /** A CLI that was spawned and whose termination has not been confirmed. */
  predicate Live(s: Sessions, token: nat) { token in s.clis && !s.clis[token] }

  function LiveSet(s: Sessions): set<nat> { set token | token in s.clis && !s.clis[token] }

  // Subscribing ---------------------------------------------------------------------------------

  predicate Admits(s: Sessions, id: string) {
    && !s.shuttingDown && |s.entries| < CAPACITY && id !in s.entries
    && forall other | other in s.entries :: !IsClosing(s, s.entries[other])
  }

  function Reserve(s: Sessions, token: nat, owner: string, id: string): Sessions {
    s.(entries := s.entries[id := Entry(owner, token, false)], tasks := s.tasks[token := Task(id, false, Validating)])
  }

  function Become(s: Sessions, token: nat, phase: Phase): Sessions
    requires token in s.tasks
  {
    s.(tasks := s.tasks[token := s.tasks[token].(phase := phase)])
  }

  /** The result of a successful start is stored under its identity alone. */
  function Register(s: Sessions, token: nat): Sessions
    requires token in s.tasks
  {
    var id := s.tasks[token].id;
    var left := Become(s, token, Leaving);
    if id in s.entries then left.(entries := s.entries[id := s.entries[id].(streaming := true)]) else left
  }

  /** A failed start frees its place unless somebody is already closing it. */
  function Fail(s: Sessions, token: nat): Sessions
    requires token in s.tasks
  {
    var left := Become(s, token, Leaving);
    if s.tasks[token].closing then left else left.(entries := s.entries - {s.tasks[token].id})
  }

  // Closing -------------------------------------------------------------------------------------

  function Close(tasks: map<nat, Task>, tokens: set<nat>): map<nat, Task> {
    map token | token in tasks :: if token in tokens then tasks[token].(closing := true) else tasks[token]
  }

  function TokensOf(entries: map<string, Entry>, ids: set<string>): set<nat> {
    set id | id in ids && id in entries :: entries[id].token
  }

  /** Whether an expired or closing entry can be forgotten; a stream in use elsewhere is left alone. */
  predicate Forgettable(s: Sessions, e: Entry, busy: set<string>, id: string) {
    if e.streaming then id !in busy && e.token in s.clis && s.clis[e.token] else Started(s, e.token)
  }

  /** Entries that stay: those still open, and those whose end is not yet certain. */
  function Kept(s: Sessions, busy: set<string>): map<string, Entry> {
    map id | id in s.entries && !(IsClosing(s, s.entries[id]) && Forgettable(s, s.entries[id], busy, id)) :: s.entries[id]
  }

  function Expire(s: Sessions, late: set<string>, busy: set<string>): Sessions {
    var closed := s.(tasks := Close(s.tasks, TokensOf(s.entries, late)));
    closed.(entries := Kept(closed, busy))
  }

  function Owned(s: Sessions, owner: Option<string>): set<string> {
    set id | id in s.entries && (owner.None? || s.entries[id].owner == owner.value)
  }

  function CloseOwner(s: Sessions, owner: Option<string>): Sessions {
    s.(tasks := Close(s.tasks, TokensOf(s.entries, Owned(s, owner))))
  }

  function BeginShutdown(s: Sessions, closer: nat): Sessions {
    s.(shuttingDown := true, tasks := Close(s.tasks, TokensOf(s.entries, s.entries.Keys)),
       closers := s.closers[closer := Closer(s.entries.Keys, false, false)])
  }

  // Unsubscribing -------------------------------------------------------------------------------

  function BeginRelease(s: Sessions, waiter: nat, owner: string, id: string): Sessions {
    if id !in s.entries then
      s.(waiters := s.waiters[waiter := Waiter(id, 0, s.shuttingDown, Ended(true))])
    else
      var e := s.entries[id];
      if e.owner != owner then s.(waiters := s.waiters[waiter := Waiter(id, e.token, s.shuttingDown, Ended(false))])
      else s.(tasks := Close(s.tasks, {e.token}),
              waiters := s.waiters[waiter := Waiter(id, e.token, s.shuttingDown, Waiting)])
  }

  function Move(s: Sessions, waiter: nat, phase: WaiterPhase): Sessions
    requires waiter in s.waiters
  {
    s.(waiters := s.waiters[waiter := s.waiters[waiter].(phase := phase)])
  }

  predicate OwnEntry(s: Sessions, w: Waiter) { w.id in s.entries && s.entries[w.id].token == w.token }

  /** Looks the stream up again, accepting only the entry seen before. */
  function TakeStream(s: Sessions, waiter: nat): Sessions
    requires waiter in s.waiters
  {
    var w := s.waiters[waiter];
    Move(s, waiter, if OwnEntry(s, w) && s.entries[w.id].streaming then Closing else Closed)
  }

  function RemoveOwn(s: Sessions, waiter: nat): Sessions
    requires waiter in s.waiters
  {
    var w := s.waiters[waiter];
    var ended := Move(s, waiter, Ended(true));
    if OwnEntry(s, w) then ended.(entries := s.entries - {w.id}) else ended
  }

  // Steps ---------------------------------------------------------------------------------------

  datatype Action =
    | Subscribe(token: nat, owner: string, id: string)
    | Drop(token: nat)
    | Reject(token: nat)
    | Clear(token: nat)
    | Spawn(token: nat)
    | RefuseSpawn(token: nat)
    | Publish(token: nat)
    | GiveUp(token: nat)
    | Complete(token: nat)
    | CliConfirmed(token: nat)
    | Lapse(late: set<string>, busy: set<string>)
    | StaleIdentity(id: string)
    | CloseWindow(window: Option<string>)
    | Release(waiter: nat, owner: string, id: string)
    | WaitEnds(waiter: nat)
    | WaitTimesOut(waiter: nat)
    | Take(waiter: nat)
    | CloseStream(waiter: nat, ok: bool)
    | Remove(waiter: nat)
    | Shutdown(closer: nat)
    | Released(closer: nat, waiter: nat)
    | Return(closer: nat)

  predicate InPhase(s: Sessions, token: nat, phase: Phase) { token in s.tasks && s.tasks[token].phase == phase }

  predicate WaiterIn(s: Sessions, waiter: nat, phase: WaiterPhase) {
    waiter in s.waiters && s.waiters[waiter].phase == phase
  }

  /** When a step can happen. */
  predicate Enabled(s: Sessions, a: Action) {
    match a
    case Subscribe(token, _, id) => token !in s.tasks && Admits(s, id)
    case Drop(token) => InPhase(s, token, Validating)
    case Reject(token) => InPhase(s, token, Validating)
    case Clear(token) => InPhase(s, token, Validating) && !s.tasks[token].closing
    case Spawn(token) => InPhase(s, token, Cleared)
    case RefuseSpawn(token) => InPhase(s, token, Cleared)
    case Publish(token) => InPhase(s, token, Spawned)
    case GiveUp(token) => InPhase(s, token, Failed)
    case Complete(token) => InPhase(s, token, Leaving)
    case CliConfirmed(token) => token in s.clis
    case Lapse(_, _) => true
    case StaleIdentity(id) => id in s.entries
    case CloseWindow(_) => true
    case Release(waiter, _, _) => waiter !in s.waiters
    case WaitEnds(waiter) => WaiterIn(s, waiter, Waiting) && Started(s, s.waiters[waiter].token)
    case WaitTimesOut(waiter) => WaiterIn(s, waiter, Waiting)
    case Take(waiter) => WaiterIn(s, waiter, Ready)
    case CloseStream(waiter, ok) =>
      WaiterIn(s, waiter, Closing) && (ok ==> s.waiters[waiter].token in s.clis && s.clis[s.waiters[waiter].token])
    case Remove(waiter) => WaiterIn(s, waiter, Closed)
    case Shutdown(closer) => closer !in s.closers
    case Released(closer, waiter) =>
      && closer in s.closers && waiter in s.waiters && s.waiters[waiter].phase.Ended?
      && s.waiters[waiter].duringShutdown && s.waiters[waiter].id in s.closers[closer].left
    case Return(closer) => closer in s.closers && s.closers[closer].left == {} && !s.closers[closer].returned
  }

  function Step(s: Sessions, a: Action): Sessions
    requires Enabled(s, a)
  {
    match a
    case Subscribe(token, owner, id) => Reserve(s, token, owner, id)
    case Drop(token) => Become(s, token, Done)
    case Reject(token) => Become(s, token, Failed)
    case Clear(token) => Become(s, token, Cleared)
    case Spawn(token) => Become(s, token, Spawned).(clis := s.clis[token := false])
    case RefuseSpawn(token) => Become(s, token, Failed)
    case Publish(token) => Register(s, token)
    case GiveUp(token) => Fail(s, token)
    case Complete(token) => Become(s, token, Done)
    case CliConfirmed(token) => s.(clis := s.clis[token := true])
    case Lapse(late, busy) => Expire(s, late, busy)
    case StaleIdentity(id) => s.(tasks := Close(s.tasks, {s.entries[id].token}))
    case CloseWindow(window) => CloseOwner(s, window)
    case Release(waiter, owner, id) => BeginRelease(s, waiter, owner, id)
    case WaitEnds(waiter) => Move(s, waiter, Ready)
    case WaitTimesOut(waiter) => Move(s, waiter, Ended(false))
    case Take(waiter) => TakeStream(s, waiter)
    case CloseStream(waiter, ok) => Move(s, waiter, if ok then Closed else Ended(false))
    case Remove(waiter) => RemoveOwn(s, waiter)
    case Shutdown(closer) => BeginShutdown(s, closer)
    case Released(closer, waiter) =>
      var c := s.closers[closer];
      s.(closers := s.closers[closer := c.(
        left := c.left - {s.waiters[waiter].id}, failed := c.failed || !s.waiters[waiter].phase.ok)])
    case Return(closer) => s.(closers := s.closers[closer := s.closers[closer].(returned := true)])
  }

  const IDLE := Sessions(map[], false, map[], map[], map[], map[])

  // Invariant -----------------------------------------------------------------------------------

  /** A call that may still spawn or has spawned without registering. */
  predicate Pending(phase: Phase) { phase in {Validating, Cleared, Failed, Spawned} }

  predicate EntryOk(s: Sessions, id: string)
    requires id in s.entries
  {
    var e := s.entries[id];
    && e.token in s.tasks && s.tasks[e.token].id == id
    && (e.streaming ==> e.token in s.clis && !Pending(s.tasks[e.token].phase))
  }

  predicate HasOwnEntry(s: Sessions, token: nat)
    requires token in s.tasks
  {
    s.tasks[token].id in s.entries && s.entries[s.tasks[token].id].token == token
  }

  /** A pending call has its own entry and no other; a CLI exists only from spawning on. */
  predicate TaskOk(s: Sessions, token: nat)
    requires token in s.tasks
  {
    && (Pending(s.tasks[token].phase) ==> HasOwnEntry(s, token) && !s.entries[s.tasks[token].id].streaming)
    && (s.tasks[token].phase in {Validating, Cleared, Failed} ==> token !in s.clis)
    && (s.tasks[token].phase == Spawned ==> token in s.clis)
  }

  /** Every live CLI is held by the entry of the call that spawned it. */
  predicate CliOk(s: Sessions, token: nat) {
    && token in s.tasks
    && (Live(s, token) ==>
          HasOwnEntry(s, token) && (s.tasks[token].phase == Spawned || s.entries[s.tasks[token].id].streaming))
  }

  predicate WaiterOk(s: Sessions, waiter: nat)
    requires waiter in s.waiters
  {
    var w := s.waiters[waiter];
    && (!w.phase.Ended? ==> w.token in s.tasks && s.tasks[w.token].id == w.id)
    && (w.phase in {Ready, Closing, Closed} ==> Started(s, w.token))
    && (w.phase == Closed ==> !Live(s, w.token))
    && (w.duringShutdown ==> s.shuttingDown)
    && (w.duringShutdown && !w.phase.Ended? && w.id in s.entries ==>
          s.entries[w.id].token == w.token)
    && (w.duringShutdown && w.phase == Ended(true) ==> w.id !in s.entries)
  }

  predicate CloserOk(s: Sessions, closer: nat)
    requires closer in s.closers
  {
    var c := s.closers[closer];
    && s.shuttingDown
    && (!c.failed ==> forall id | id in s.entries :: id in c.left)
    && (c.returned ==> c.left == {})
  }

  ghost predicate Inv(s: Sessions) {
    && |s.entries| <= CAPACITY
    && (forall id | id in s.entries :: EntryOk(s, id))
    && (forall token | token in s.tasks :: TaskOk(s, token))
    && (forall token | token in s.clis :: CliOk(s, token))
    && (forall waiter | waiter in s.waiters :: WaiterOk(s, waiter))
    && (forall closer | closer in s.closers :: CloserOk(s, closer))
  }
}
