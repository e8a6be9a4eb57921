/** The mutex-guarded session map; each method is one critical section. */
module LogSessionsObject {
  import opened Wrappers
  import opened LogSessionSteps
  import LogSessionProofs

  class LogSessions {
    var entries: map<string, Entry>
    var shuttingDown: bool
    var tasks: map<nat, Task>
    var clis: map<nat, bool>
    var waiters: map<nat, Waiter>
    var closers: map<nat, Closer>

    ghost function State(): Sessions
      reads this
    {
      Sessions(entries, shuttingDown, tasks, clis, waiters, closers)
    }

    ghost predicate Valid()
      reads this
    {
      Inv(State())
    }

    constructor ()
      ensures Valid() && State() == IDLE
    {
      entries, shuttingDown, tasks, clis, waiters, closers := map[], false, map[], map[], map[], map[];
    }

    /** Tells a subscription's call, wherever it is, that nobody wants its result any more. */
    method MarkClosing(token: nat)
      modifies `tasks
      ensures tasks == Close(old(tasks), {token})
    {
      if token in tasks { tasks := tasks[token := tasks[token].(closing := true)]; }
    }

    /** Closes the selected entries one by one. */
    method CloseEach(ids: set<string>)
      modifies `tasks
      ensures tasks == Close(old(tasks), TokensOf(entries, ids))
    {
      var left := ids * entries.Keys;
      while left != {}
        invariant left <= ids * entries.Keys
        invariant tasks == Close(old(tasks), TokensOf(entries, ids * entries.Keys - left))
        decreases |left|
      {
        var id :| id in left;
        ghost var before := TokensOf(entries, ids * entries.Keys - left);
        left := left - {id};
        MarkClosing(entries[id].token);
        assert TokensOf(entries, ids * entries.Keys - left) == before + {entries[id].token};
      }
      assert TokensOf(entries, ids * entries.Keys - left) == TokensOf(entries, ids);
    }

    method Expire(late: set<string>, busy: set<string>)
      requires Valid()
      modifies this
      ensures Valid() && State() == Step(old(State()), Lapse(late, busy))
    {
      hide Inv;
      LogSessionProofs.StepKeeps(State(), Lapse(late, busy));
      CloseEach(late);
      RetainOpen(busy);
    }

    method RetainOpen(busy: set<string>)
      modifies `entries
      ensures entries == Kept(old(State()), busy)
    {
      var kept: map<string, Entry> := map[];
      var left := entries.Keys;
      while left != {}
        invariant left <= entries.Keys && kept.Keys <= entries.Keys - left && entries == old(entries)
        invariant forall id | id in entries && id !in left ::
          id in kept <==> !(IsClosing(State(), entries[id]) && Forgettable(State(), entries[id], busy, id))
        invariant forall id | id in kept :: kept[id] == entries[id]
        decreases |left|
      {
        var id :| id in left;
        left := left - {id};
        var e := entries[id];
        var closing := e.token in tasks && tasks[e.token].closing;
        var over := if e.streaming then id !in busy && e.token in clis && clis[e.token]
          else e.token in tasks && tasks[e.token].phase == Done;
        if !closing || !over { kept := kept[id := e]; }
      }
      entries := kept;
    }

    method CloseOwner(window: Option<string>)
      requires Valid()
      modifies this
      ensures Valid() && State() == Step(old(State()), CloseWindow(window))
    {
      hide Inv;
      LogSessionProofs.StepKeeps(State(), CloseWindow(window));
      CloseEach(set id | id in entries && (window.None? || entries[id].owner == window.value));
    }

    /** Reserves a place for a new subscription, unless the map is full, closing or shutting down. */
    method Subscribe(token: nat, owner: string, id: string) returns (ok: bool)
      requires Valid() && token !in tasks
      modifies this
      ensures Valid() && ok == Admits(old(State()), id)
      ensures State() == if ok then Step(old(State()), Action.Subscribe(token, owner, id)) else old(State())
    {
      hide Inv;
      if shuttingDown || |entries| >= CAPACITY || id in entries
        || (exists other :: other in entries && entries[other].token in tasks && tasks[entries[other].token].closing)
      {
        return false;
      }
      LogSessionProofs.StepKeeps(State(), Action.Subscribe(token, owner, id));
      entries := entries[id := Entry(owner, token, false)];
      tasks := tasks[token := Task(id, false, Validating)];
      ok := true;
    }

    /** Stores the stream of a successful start; the lookup by identity never misses. */
    method Publish(token: nat) returns (open: bool)
      requires Valid() && InPhase(State(), token, Spawned)
      modifies this
      ensures Valid() && State() == Step(old(State()), Action.Publish(token))
      ensures old(tasks[token].id) in old(entries) && old(entries[tasks[token].id].token) == token
      ensures open == !old(tasks[token].closing)
    {
      hide Inv;
      LogSessionProofs.StepKeeps(State(), Action.Publish(token));
      LogSessionProofs.PublishFindsOwnEntry(State(), token);
      var id := tasks[token].id;
      open := !tasks[token].closing;
      entries := entries[id := entries[id].(streaming := true)];
      tasks := tasks[token := tasks[token].(phase := Leaving)];
    }

    method GiveUp(token: nat)
      requires Valid() && InPhase(State(), token, Failed)
      modifies this
      ensures Valid() && State() == Step(old(State()), Action.GiveUp(token))
    {
      hide Inv;
      LogSessionProofs.StepKeeps(State(), Action.GiveUp(token));
      if !tasks[token].closing { entries := entries - {tasks[token].id}; }
      tasks := tasks[token := tasks[token].(phase := Leaving)];
    }

    /** First part of a release; an absent entry is a success, another owner's a refusal. */
    method Release(waiter: nat, owner: string, id: string) returns (ended: Option<bool>)
      requires Valid() && waiter !in waiters
      modifies this
      ensures Valid() && State() == Step(old(State()), Action.Release(waiter, owner, id))
      ensures ended == if id !in old(entries) then Some(true)
        else if old(entries)[id].owner != owner then Some(false) else None
    {
      hide Inv;
      LogSessionProofs.StepKeeps(State(), Action.Release(waiter, owner, id));
      if id !in entries {
        waiters := waiters[waiter := Waiter(id, 0, shuttingDown, Ended(true))];
        return Some(true);
      }
      var e := entries[id];
      if e.owner != owner {
        waiters := waiters[waiter := Waiter(id, e.token, shuttingDown, Ended(false))];
        return Some(false);
      }
      MarkClosing(e.token);
      waiters := waiters[waiter := Waiter(id, e.token, shuttingDown, Waiting)];
      ended := None;
    }

    method Take(waiter: nat) returns (stream: bool)
      requires Valid() && WaiterIn(State(), waiter, Ready)
      modifies this
      ensures Valid() && State() == Step(old(State()), Action.Take(waiter))
      ensures stream == (waiters[waiter].phase == Closing)
    {
      hide Inv;
      LogSessionProofs.StepKeeps(State(), Action.Take(waiter));
      var w := waiters[waiter];
      stream := w.id in entries && entries[w.id].token == w.token && entries[w.id].streaming;
      waiters := waiters[waiter := w.(phase := if stream then Closing else Closed)];
    }

    method Remove(waiter: nat)
      requires Valid() && WaiterIn(State(), waiter, Closed)
      modifies this
      ensures Valid() && State() == Step(old(State()), Action.Remove(waiter))
    {
      hide Inv;
      LogSessionProofs.StepKeeps(State(), Action.Remove(waiter));
      var w := waiters[waiter];
      if w.id in entries && entries[w.id].token == w.token { entries := entries - {w.id}; }
      waiters := waiters[waiter := w.(phase := Ended(true))];
    }

    /** Rejects new starts and closes everything; the entries seen are then released one by one. */
    method Shutdown(closer: nat) returns (ids: set<string>)
      requires Valid() && closer !in closers
      modifies this
      ensures Valid() && State() == Step(old(State()), Action.Shutdown(closer)) && ids == old(entries).Keys
    {
      hide Inv;
      LogSessionProofs.StepKeeps(State(), Action.Shutdown(closer));
      shuttingDown := true;
      ids := entries.Keys;
      CloseEach(ids);
      closers := closers[closer := Closer(ids, false, false)];
    }
  }
}
