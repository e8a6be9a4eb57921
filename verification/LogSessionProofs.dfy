/** At most two log CLIs live, each held by its own entry, and none after a successful shutdown. */
module LogSessionProofs {
  import opened Wrappers
  import opened LogSessionSteps

  // One step ------------------------------------------------------------------------------------

  lemma SubscribeKeeps(s: Sessions, token: nat, owner: string, id: string)
    requires Inv(s) && Enabled(s, Subscribe(token, owner, id))
    ensures Inv(Reserve(s, token, owner, id))
  {
    var t := Reserve(s, token, owner, id);
    forall k | k in t.tasks ensures TaskOk(t, k) {
      assert k != token ==> TaskOk(s, k);
    }
    forall k | k in t.clis ensures CliOk(t, k) {
      assert CliOk(s, k);
    }
    forall w | w in t.waiters ensures WaiterOk(t, w) {
      assert WaiterOk(s, w);
    }
    forall e | e in t.entries ensures EntryOk(t, e) {
      assert e != id ==> EntryOk(s, e);
    }
  }

  /** The call moves on without touching the map. */
  predicate Moves(from: Phase, to: Phase) {
    match from
    case Validating => to in {Done, Failed, Cleared}
    case Cleared => to == Failed
    case Leaving => to == Done
    case _ => false
  }

  lemma BecomeKeeps(s: Sessions, token: nat, to: Phase)
    requires Inv(s) && token in s.tasks && Moves(s.tasks[token].phase, to)
    ensures Inv(Become(s, token, to))
  {
    var t := Become(s, token, to);
    assert TaskOk(s, token);
    forall k | k in t.tasks ensures TaskOk(t, k) {
      assert TaskOk(s, k);
    }
    forall k | k in t.clis ensures CliOk(t, k) {
      assert CliOk(s, k);
    }
    forall w | w in t.waiters ensures WaiterOk(t, w) {
      assert WaiterOk(s, w);
    }
    forall e | e in t.entries ensures EntryOk(t, e) {
      assert EntryOk(s, e);
    }
    forall c | c in t.closers ensures CloserOk(t, c) {
      assert CloserOk(s, c);
    }
  }

  lemma SpawnKeeps(s: Sessions, token: nat)
    requires Inv(s) && Enabled(s, Spawn(token))
    ensures Inv(Step(s, Spawn(token)))
  {
    var t := Step(s, Spawn(token));
    forall k | k in t.tasks ensures TaskOk(t, k) {
      assert TaskOk(s, k);
    }
    forall k | k in t.clis ensures CliOk(t, k) {
      assert k != token ==> CliOk(s, k);
      assert TaskOk(s, token);
    }
    forall w | w in t.waiters ensures WaiterOk(t, w) {
      assert WaiterOk(s, w);
    }
    forall e | e in t.entries ensures EntryOk(t, e) {
      assert EntryOk(s, e) && TaskOk(s, token);
    }
    forall c | c in t.closers ensures CloserOk(t, c) {
      assert CloserOk(s, c);
    }
  }

  /** The lookup at registration finds the call's own entry, still without a stream. */
  lemma PublishFindsOwnEntry(s: Sessions, token: nat)
    requires Inv(s) && Enabled(s, Publish(token))
    ensures HasOwnEntry(s, token) && !s.entries[s.tasks[token].id].streaming
  {
    assert TaskOk(s, token);
  }

  lemma PublishKeeps(s: Sessions, token: nat)
    requires Inv(s) && Enabled(s, Publish(token))
    ensures Inv(Register(s, token))
  {
    PublishFindsOwnEntry(s, token);
    var t := Register(s, token);
    assert t.entries.Keys == s.entries.Keys;
    forall k | k in t.tasks ensures TaskOk(t, k) {
      assert TaskOk(s, k);
    }
    forall k | k in t.clis ensures CliOk(t, k) {
      assert CliOk(s, k);
    }
    forall w | w in t.waiters ensures WaiterOk(t, w) {
      assert WaiterOk(s, w);
    }
    forall e | e in t.entries ensures EntryOk(t, e) {
      assert EntryOk(s, e) && TaskOk(s, token);
    }
    forall c | c in t.closers ensures CloserOk(t, c) {
      assert CloserOk(s, c);
    }
  }

  /** Forgetting entries whose call is over and whose CLI is not live. */
  predicate Spent(s: Sessions, token: nat) {
    token in s.tasks && s.tasks[token].phase in {Failed, Leaving, Done} && !Live(s, token)
  }

  lemma FewerEntriesKeep(s: Sessions, t: Sessions, gone: set<string>)
    requires Inv(s) && t == s.(entries := s.entries - gone)
    requires forall id | id in gone && id in s.entries :: Spent(s, s.entries[id].token) && s.tasks[s.entries[id].token].phase != Failed
    ensures Inv(t)
  {
    assert t.entries.Keys <= s.entries.Keys;
    SmallerSet(t.entries.Keys, s.entries.Keys);
    forall k | k in t.tasks ensures TaskOk(t, k) {
      assert TaskOk(s, k);
    }
    forall k | k in t.clis ensures CliOk(t, k) {
      assert CliOk(s, k);
    }
    forall w | w in t.waiters ensures WaiterOk(t, w) {
      assert WaiterOk(s, w);
    }
    forall e | e in t.entries ensures EntryOk(t, e) {
      assert EntryOk(s, e);
    }
    forall c | c in t.closers ensures CloserOk(t, c) {
      assert CloserOk(s, c);
    }
  }

  lemma {:induction false} SmallerSet<T>(a: set<T>, b: set<T>)
    requires a <= b
    ensures |a| <= |b|
  {
    assert |b| == |a| + |b - a| by {
      assert b == a + (b - a) && a !! (b - a);
    }
  }

  lemma GiveUpKeeps(s: Sessions, token: nat)
    requires Inv(s) && Enabled(s, GiveUp(token))
    ensures Inv(Fail(s, token))
  {
    assert TaskOk(s, token);
    var left := Become(s, token, Leaving);
    FailedMayLeave(s, token);
    if !s.tasks[token].closing {
      FewerEntriesKeep(left, Fail(s, token), {s.tasks[token].id});
    }
  }

  lemma FailedMayLeave(s: Sessions, token: nat)
    requires Inv(s) && InPhase(s, token, Failed)
    ensures Inv(Become(s, token, Leaving))
  {
    var t := Become(s, token, Leaving);
    assert TaskOk(s, token);
  }

  lemma CliConfirmedKeeps(s: Sessions, token: nat)
    requires Inv(s) && token in s.clis
    ensures Inv(s.(clis := s.clis[token := true]))
  {
    var t := s.(clis := s.clis[token := true]);
  }

  lemma CloseKeeps(s: Sessions, tokens: set<nat>)
    requires Inv(s)
    ensures Inv(s.(tasks := Close(s.tasks, tokens)))
  {
    var t := s.(tasks := Close(s.tasks, tokens));
  }

  /** What expiry may forget is over: its CLI is confirmed, or was never and can never be spawned. */
  lemma ForgettableIsSpent(s: Sessions, busy: set<string>, id: string)
    requires Inv(s) && id in s.entries && Forgettable(s, s.entries[id], busy, id)
    ensures Spent(s, s.entries[id].token) && s.tasks[s.entries[id].token].phase != Failed
  {
    var token := s.entries[id].token;
    assert EntryOk(s, id) && TaskOk(s, token);
    if token in s.clis { assert CliOk(s, token); }
  }

  lemma ExpireKeeps(s: Sessions, late: set<string>, busy: set<string>)
    requires Inv(s)
    ensures Inv(Expire(s, late, busy))
  {
    hide Inv;
    var tokens := TokensOf(s.entries, late);
    var closed := s.(tasks := Close(s.tasks, tokens));
    CloseKeeps(s, tokens);
    var t := Expire(s, late, busy);
    var gone := s.entries.Keys - t.entries.Keys;
    forall id | id in gone
      ensures Spent(closed, s.entries[id].token) && closed.tasks[s.entries[id].token].phase != Failed
    {
      assert Forgettable(closed, s.entries[id], busy, id);
      ForgettableIsSpent(closed, busy, id);
    }
    assert t.entries == closed.entries - gone;
    FewerEntriesKeep(closed, t, gone);
  }

  lemma ShutdownKeeps(s: Sessions, closer: nat)
    requires Inv(s) && closer !in s.closers
    ensures Inv(BeginShutdown(s, closer))
  {
    var tokens := TokensOf(s.entries, s.entries.Keys);
    CloseKeeps(s, tokens);
    var closed := s.(tasks := Close(s.tasks, tokens));
    var t := BeginShutdown(s, closer);
  }

  /** Only the calls waiting for a release change. */
  lemma WaitersKeep(s: Sessions, t: Sessions)
    requires Inv(s) && t == s.(waiters := t.waiters)
    requires forall w | w in t.waiters :: WaiterOk(t, w)
    ensures Inv(t)
  {
  }

  lemma AddWaiterKeeps(s: Sessions, waiter: nat, w: Waiter)
    requires Inv(s) && waiter !in s.waiters && WaiterOk(s.(waiters := s.waiters[waiter := w]), waiter)
    ensures Inv(s.(waiters := s.waiters[waiter := w]))
  {
    var t := s.(waiters := s.waiters[waiter := w]);
    forall v | v in t.waiters ensures WaiterOk(t, v) {
      assert v != waiter ==> WaiterOk(s, v);
    }
    WaitersKeep(s, t);
  }

  lemma ReleaseKeeps(s: Sessions, waiter: nat, owner: string, id: string)
    requires Inv(s) && waiter !in s.waiters
    ensures Inv(BeginRelease(s, waiter, owner, id))
  {
    hide Inv, Close;
    if id in s.entries {
      OneEntry(s, id);
      var e := s.entries[id];
      if e.owner == owner {
        CloseKeeps(s, {e.token});
        var closed := s.(tasks := Close(s.tasks, {e.token}));
        assert closed.tasks.Keys == s.tasks.Keys && closed.tasks[e.token].id == id by { ClosedIs(s.tasks, {e.token}); }
        AddWaiterKeeps(closed, waiter, Waiter(id, e.token, s.shuttingDown, Waiting));
      } else {
        AddWaiterKeeps(s, waiter, Waiter(id, e.token, s.shuttingDown, Ended(false)));
      }
    } else {
      AddWaiterKeeps(s, waiter, Waiter(id, 0, s.shuttingDown, Ended(true)));
    }
  }

  lemma OneEntry(s: Sessions, id: string)
    requires Inv(s) && id in s.entries
    ensures EntryOk(s, id)
  {
  }

  lemma ClosedIs(tasks: map<nat, Task>, tokens: set<nat>)
    ensures Close(tasks, tokens).Keys == tasks.Keys
    ensures forall token | token in tasks ::
      Close(tasks, tokens)[token].id == tasks[token].id && Close(tasks, tokens)[token].phase == tasks[token].phase
  {
  }

  lemma MoveKeeps(s: Sessions, waiter: nat, to: WaiterPhase)
    requires Inv(s) && waiter in s.waiters && !s.waiters[waiter].phase.Ended? && to != Waiting && to != Ended(true)
    requires to in {Ready, Closing, Closed} ==> Started(s, s.waiters[waiter].token)
    requires to == Closed ==> !Live(s, s.waiters[waiter].token)
    ensures Inv(Move(s, waiter, to))
  {
    var t := Move(s, waiter, to);
    WaitersKeep(s, t);
  }

  /** With its call over and no stream in its entry, a subscription has no live CLI. */
  lemma NoStreamNotLive(s: Sessions, waiter: nat)
    requires Inv(s) && WaiterIn(s, waiter, Ready)
    requires !(OwnEntry(s, s.waiters[waiter]) && s.entries[s.waiters[waiter].id].streaming)
    ensures !Live(s, s.waiters[waiter].token)
  {
    var w := s.waiters[waiter];
    assert WaiterOk(s, waiter);
    if w.token in s.clis { assert CliOk(s, w.token); }
  }

  lemma EndWaiterKeeps(s: Sessions, waiter: nat)
    requires Inv(s) && waiter in s.waiters && (s.waiters[waiter].duringShutdown ==> s.waiters[waiter].id !in s.entries)
    ensures Inv(Move(s, waiter, Ended(true)))
  {
    var t := Move(s, waiter, Ended(true));
    forall v | v in t.waiters ensures WaiterOk(t, v) {
      assert WaiterOk(s, v);
    }
    WaitersKeep(s, t);
  }

  lemma RemoveInTwo(s: Sessions, waiter: nat)
    requires waiter in s.waiters
    ensures var w := s.waiters[waiter];
      var gone := if OwnEntry(s, w) then {w.id} else {};
      RemoveOwn(s, waiter) == Move(s.(entries := s.entries - gone), waiter, Ended(true))
  {
    var w := s.waiters[waiter];
    if !OwnEntry(s, w) { assert s.entries - {} == s.entries; }
  }

  lemma RemoveKeeps(s: Sessions, waiter: nat)
    requires Inv(s) && WaiterIn(s, waiter, Closed)
    ensures Inv(RemoveOwn(s, waiter))
  {
    hide Inv, RemoveOwn, Move;
    var w := s.waiters[waiter];
    OneWaiter(s, waiter);
    var gone := if OwnEntry(s, w) then {w.id} else {};
    var fewer := s.(entries := s.entries - gone);
    FewerEntriesKeep(s, fewer, gone);
    EndWaiterKeeps(fewer, waiter);
    RemoveInTwo(s, waiter);
  }

  lemma OneWaiter(s: Sessions, waiter: nat)
    requires Inv(s) && waiter in s.waiters
    ensures WaiterOk(s, waiter)
  {
  }

  lemma ClosersKeep(s: Sessions, a: Action)
    requires Inv(s) && Enabled(s, a) && (a.Released? || a.Return?)
    ensures Inv(Step(s, a))
  {
    var t := Step(s, a);
    if a.Released? { assert WaiterOk(s, a.waiter); }
  }

  /** Every step of every participant keeps the invariant. */
  lemma StepKeeps(s: Sessions, a: Action)
    requires Inv(s) && Enabled(s, a)
    ensures Inv(Step(s, a))
  {
    hide Inv, Expire, CloseOwner, BeginShutdown, BeginRelease, Register, Fail, RemoveOwn, Close, Admits;
    match a
    case Subscribe(token, owner, id) => SubscribeKeeps(s, token, owner, id);
    case Drop(token) => BecomeKeeps(s, token, Done);
    case Reject(token) => BecomeKeeps(s, token, Failed);
    case Clear(token) => BecomeKeeps(s, token, Cleared);
    case Spawn(token) => SpawnKeeps(s, token);
    case RefuseSpawn(token) => BecomeKeeps(s, token, Failed);
    case Publish(token) => PublishKeeps(s, token);
    case GiveUp(token) => GiveUpKeeps(s, token);
    case Complete(token) => BecomeKeeps(s, token, Done);
    case CliConfirmed(token) => CliConfirmedKeeps(s, token);
    case Lapse(late, busy) => ExpireKeeps(s, late, busy);
    case StaleIdentity(id) => CloseKeeps(s, {s.entries[id].token});
    case CloseWindow(window) => CloseWindowKeeps(s, window);
    case Release(waiter, owner, id) => ReleaseKeeps(s, waiter, owner, id);
    case WaitEnds(waiter) => MoveKeeps(s, waiter, Ready);
    case WaitTimesOut(waiter) => MoveKeeps(s, waiter, Ended(false));
    case Take(waiter) => TakeKeeps(s, waiter);
    case CloseStream(waiter, ok) =>
      OneWaiter(s, waiter);
      MoveKeeps(s, waiter, if ok then Closed else Ended(false));
    case Remove(waiter) => RemoveKeeps(s, waiter);
    case Shutdown(closer) => ShutdownKeeps(s, closer);
    case Released(_, _) => ClosersKeep(s, a);
    case Return(_) => ClosersKeep(s, a);
  }

  lemma CloseWindowKeeps(s: Sessions, window: Option<string>)
    requires Inv(s)
    ensures Inv(CloseOwner(s, window))
  {
    CloseKeeps(s, TokensOf(s.entries, Owned(s, window)));
  }

  lemma TakeKeeps(s: Sessions, waiter: nat)
    requires Inv(s) && WaiterIn(s, waiter, Ready)
    ensures Inv(TakeStream(s, waiter))
  {
    hide Inv;
    OneWaiter(s, waiter);
    var w := s.waiters[waiter];
    if OwnEntry(s, w) && s.entries[w.id].streaming {
      MoveKeeps(s, waiter, Closing);
    } else {
      NoStreamNotLive(s, waiter);
      MoveKeeps(s, waiter, Closed);
    }
  }

  // Runs ----------------------------------------------------------------------------------------

  ghost predicate Run(states: seq<Sessions>, actions: seq<Action>) {
    && |states| == |actions| + 1 && states[0] == IDLE
    && forall k | 0 <= k < |actions| :: Enabled(states[k], actions[k]) && states[k + 1] == Step(states[k], actions[k])
  }

  lemma {:induction false} RunKeeps(states: seq<Sessions>, actions: seq<Action>, k: nat)
    requires Run(states, actions) && k < |states|
    ensures Inv(states[k])
  {
    hide Enabled, Step;
    if k > 0 {
      hide Inv;
      RunKeeps(states, actions, k - 1);
      StepKeeps(states[k - 1], actions[k - 1]);
    }
  }

  lemma {:induction false} LiveEntries(s: Sessions, tokens: set<nat>)
    requires forall token | token in tokens :: token in s.tasks && HasOwnEntry(s, token)
    ensures |tokens| <= |s.entries|
    decreases |tokens|
  {
    if tokens != {} {
      var token :| token in tokens;
      var id := s.tasks[token].id;
      var fewer := s.(entries := s.entries - {id});
      LiveEntries(fewer, tokens - {token});
      assert |fewer.entries| == |s.entries| - 1;
    }
  }

  /** In every interleaving at most two log CLIs are live, each held by its own entry. */
  lemma AtMostTwoLive(states: seq<Sessions>, actions: seq<Action>, k: nat)
    requires Run(states, actions) && k < |states|
    ensures |LiveSet(states[k])| <= CAPACITY
    ensures forall token | token in LiveSet(states[k]) :: token in states[k].tasks && HasOwnEntry(states[k], token)
  {
    hide Run;
    RunKeeps(states, actions, k);
    var s := states[k];
    forall token | token in LiveSet(s) ensures token in s.tasks && HasOwnEntry(s, token) {
      assert CliOk(s, token);
    }
    LiveEntries(s, LiveSet(s));
  }

  lemma GivenUpIsSpent(s: Sessions, token: nat)
    requires Inv(s) && InPhase(s, token, Failed)
    ensures Spent(Fail(s, token), token) && HasOwnEntry(s, token)
  {
    assert TaskOk(s, token);
  }

  lemma ExpiredIsSpent(s: Sessions, late: set<string>, busy: set<string>, id: string)
    requires Inv(s) && id in s.entries && id !in Expire(s, late, busy).entries
    ensures Spent(Expire(s, late, busy), s.entries[id].token)
  {
    hide Inv;
    var closed := s.(tasks := Close(s.tasks, TokensOf(s.entries, late)));
    CloseKeeps(s, TokensOf(s.entries, late));
    ForgettableIsSpent(closed, busy, id);
  }

  /** The steps that take an entry out of the map. */
  predicate Removes(a: Action) { a.GiveUp? || a.Lapse? || a.Remove? }

  lemma OthersKeepEntries(s: Sessions, a: Action, id: string)
    requires Enabled(s, a) && !Removes(a) && id in s.entries
    ensures id in Step(s, a).entries && Step(s, a).entries[id].token == s.entries[id].token
  {
    hide Close, TokensOf, Owned, IsClosing;
  }

  /** An entry disappears only when its CLI is confirmed ended, or was not and can no longer be spawned. */
  lemma EntryLeavesOnlyWhenSpent(s: Sessions, a: Action, id: string)
    requires Inv(s) && Enabled(s, a) && id in s.entries
    requires !(id in Step(s, a).entries && Step(s, a).entries[id].token == s.entries[id].token)
    ensures Spent(Step(s, a), s.entries[id].token)
  {
    hide Inv, Expire, Close;
    if !Removes(a) { OthersKeepEntries(s, a, id); }
    match a {
      case GiveUp(token) => GivenUpIsSpent(s, token);
      case Lapse(late, busy) =>
        ExpiredKeepTokens(s, late, busy, id);
        ExpiredIsSpent(s, late, busy, id);
      case Remove(waiter) => OneWaiter(s, waiter);
      case _ =>
    }
  }

  lemma ExpiredKeepTokens(s: Sessions, late: set<string>, busy: set<string>, id: string)
    ensures id in Expire(s, late, busy).entries ==> id in s.entries && Expire(s, late, busy).entries[id] == s.entries[id]
  {
  }

  /** Nothing is live and no call can spawn any more. */
  predicate Quiet(s: Sessions) {
    && s.shuttingDown && s.entries == map[]
    && (forall token | token in s.clis :: s.clis[token])
    && (forall token | token in s.tasks :: !Pending(s.tasks[token].phase))
  }

  lemma ShutdownIsQuiet(s: Sessions, closer: nat)
    requires Inv(s) && closer in s.closers && s.closers[closer].returned && !s.closers[closer].failed
    ensures Quiet(s)
  {
    assert CloserOk(s, closer);
    assert s.entries == map[];
    forall token | token in s.clis ensures s.clis[token] {
      assert CliOk(s, token);
    }
    forall token | token in s.tasks ensures !Pending(s.tasks[token].phase) {
      assert TaskOk(s, token);
    }
  }

  /** After shutdown has returned success no CLI is live, and none ever starts again. */
  lemma {:induction false} SilentAfterShutdown(
    states: seq<Sessions>, actions: seq<Action>, closer: nat, j: nat, k: nat)
    requires Run(states, actions) && j <= k < |states| && closer in states[j].closers
    requires states[j].closers[closer].returned && !states[j].closers[closer].failed
    ensures Quiet(states[k])
    decreases k
  {
    hide Inv, Enabled, Step, Quiet;
    if k == j {
      RunKeeps(states, actions, k);
      ShutdownIsQuiet(states[k], closer);
    } else {
      SilentAfterShutdown(states, actions, closer, j, k - 1);
      QuietStays(states[k - 1], actions[k - 1]);
    }
  }

  lemma QuietStays(s: Sessions, a: Action)
    requires Quiet(s) && Enabled(s, a)
    ensures Quiet(Step(s, a))
  {
    hide TokensOf, Owned, IsClosing;
  }

  // Whose entries are closed ------------------------------------------------------------------------------------

  /** Closing a window closes its own entries and no others; without a window, all of them. */
  lemma OwnEntriesClosed(s: Sessions, owner: Option<string>, id: string)
    requires Inv(s) && id in s.entries
    ensures var t := CloseOwner(s, owner);
      && t == s.(tasks := t.tasks) && t.entries[id] == s.entries[id]
      && (IsClosing(t, t.entries[id]) <==>
            IsClosing(s, s.entries[id]) || owner.None? || s.entries[id].owner == owner.value)
  {
    var e := s.entries[id];
    assert EntryOk(s, id);
    if e.token in TokensOf(s.entries, Owned(s, owner)) {
      var other :| other in Owned(s, owner) && other in s.entries && s.entries[other].token == e.token;
      assert EntryOk(s, other);
    }
    if owner.None? || e.owner == owner.value { assert id in Owned(s, owner); }
  }

  /** Expiry forgets a late or closing entry as soon as its end is certain, and no other entry. */
  lemma ExpiredIsForgotten(s: Sessions, late: set<string>, busy: set<string>, id: string)
    requires Inv(s) && id in s.entries
    ensures var e := s.entries[id];
      id !in Expire(s, late, busy).entries <==>
        (IsClosing(s, e) || id in late)
        && (if e.streaming then id !in busy && s.clis[e.token] else s.tasks[e.token].phase == Done)
    ensures id in Expire(s, late, busy).entries ==> Expire(s, late, busy).entries[id] == s.entries[id]
  {
    var e := s.entries[id];
    assert EntryOk(s, id);
    if e.token in TokensOf(s.entries, late) {
      var other :| other in late && other in s.entries && s.entries[other].token == e.token;
      assert EntryOk(s, other);
    }
  }

  /** A window can release only its own entries; for another's nothing changes but its own refusal. */
  lemma ForeignReleaseRefused(s: Sessions, waiter: nat, owner: string, id: string)
    requires id in s.entries && s.entries[id].owner != owner
    ensures var t := BeginRelease(s, waiter, owner, id);
      t == s.(waiters := t.waiters) && waiter in t.waiters && t.waiters[waiter].phase == Ended(false)
      && t.waiters - {waiter} == s.waiters - {waiter}
  {
  }

  /** Nothing starts during shutdown, while anything is being closed, over capacity, or under a name in use. */
  lemma StartsAreBarred(s: Sessions, id: string)
    ensures s.shuttingDown || |s.entries| >= 2 || id in s.entries ==> !Admits(s, id)
    ensures (exists other :: other in s.entries && IsClosing(s, s.entries[other])) ==> !Admits(s, id)
    ensures s.entries == map[] && !s.shuttingDown ==> Admits(s, id)
  {
  }
}
