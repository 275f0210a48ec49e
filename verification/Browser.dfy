/**
 The browser as it runs: one object store, the module variables of every open tab, and the async
 functions between two awaits. Every turn of the event loop is one step of the state machine in
 `DeviceSession`, so every theorem about its runs holds of every browser.
 */
module Browser {
  import opened Common
  import opened DeviceSession
  import opened SessionStorage
  import opened SessionSafety

  /** The world after a turn that moves the task and its tab. */
  function Moving(w: World, step: Step, n: Option<(Task, Tab)>): Option<World> {
    if n.None? then None else Some(WithTask(WithTab(w, step, n.value.1), step, n.value.0))
  }

  lemma TurnMoves(w: World, step: Step)
    requires step.tab in w.tabs && step.task in w.tasks && w.tasks[step.task].tab == step.tab
    ensures var task, tab := w.tasks[step.task].task, w.tabs[step.tab];
            && (step.act.ReadDone? ==> Moved(w, step) == Moving(w, step, AfterReadDone(task, tab)))
            && (step.act.Judge? ==> Moved(w, step) == Moving(w, step, AfterJudge(task, tab, step.act.valid)))
            && (step.act.CommitDone? ==>
                  var n := AfterCommitDone(task, tab);
                  Moved(w, step) == if n.None? then None
                                    else Some(Moving(w, step, Some((n.value.0, n.value.1))).value.(posted := w.posted + {n.value.2})))
  {
    hide AfterReadDone, AfterJudge, AfterCommitDone;
  }

  lemma RunGrows(r: Run, step: Step)
    requires DeviceSession.Valid(r)
    ensures |r.worlds| == |r.steps| + 1
    ensures DeviceSession.Valid(Run(r.worlds + [Next(r.worlds[|r.steps|], step)], r.steps + [step]))
  {
    hide Next;
  }

  class Browser {
    const store: ObjectStore
    var tabs: map<nat, TabVariables>
    var tasks: map<nat, Running>
    var minted: map<nat, Version>
    var posted: set<nat>
    var clock: nat
    ghost var run: Run

    /** No two tabs share their module variables. */
    ghost predicate Separate()
      reads `tabs
    {
      forall s, t | s in tabs && t in tabs && tabs[s] == tabs[t] :: s == t
    }

    ghost function Tabs(): map<nat, Tab>
      reads `tabs, tabs.Values
    {
      map t | t in tabs :: tabs[t].Abs()
    }

    ghost function Abs(): World
      reads this, store, tabs.Values
    {
      World(store.Abs(), Tabs(), tasks, minted, posted, clock)
    }

    /** The browser is in the latest world of the run that it records. */
    ghost predicate Valid()
      reads this, store, tabs.Values
    {
      Separate() && DeviceSession.Valid(run) && run.worlds[|run.steps|] == Abs()
    }

    constructor ()
      ensures Valid() && Abs() == NEW_WORLD && run.steps == [] && fresh(store)
    {
      store := new ObjectStore();
      tabs, tasks, minted, posted, clock := map[], map[], map[], {}, 0;
      new;
      run := Run([Abs()], []);
    }

    // -------------------------------------------------------------- the turns of one task

    method SetTask(id: nat, tab: nat, task: Task)
      modifies `tasks
      ensures tasks == old(tasks)[id := Running(tab, task)]
    {
      tasks := tasks[id := Running(tab, task)];
    }

    /** An async function is called and runs to its first await. */
    method StartTask(step: Step, tab: TabVariables) returns (ok: bool)
      requires step.task !in tasks && step.tab in tabs && tabs[step.tab] == tab && Separate()
      modifies `tasks, tab
      ensures var n := old(Start(Abs(), step, tab.Abs())); if ok then n == Some(Abs()) else n == None && Abs() == old(Abs())
    {
      ghost var before := Tabs();
      match step.act {
        case StartSignIn(account) =>
          SetTask(step.task, step.tab, if account.Some? then Checking(account.value, SignIn, tab.generation, tab.generation)
                                       else Choosing(None, SignIn, tab.generation));
        case StartPayment(account) => SetTask(step.task, step.tab, Checking(account, Payment, tab.generation, tab.generation));
        case StartRemember(account, key, delegate) => SetTask(step.task, step.tab, Recalling(account, key, delegate, tab.generation));
        case StartUpdate(scope) =>
          tab.Invalidate();
          SetTask(step.task, step.tab, Updating(scope));
        case StartWatching(place) =>
          SetTask(step.task, step.tab, if tab.observed.Some? then Opening(place, tab.observed.value, tab.alarms) else Ended(None));
        case _ => return false;
      }
      assert Tabs() == before[step.tab := tab.Abs()];
      ok := true;
    }

    method Look(account: AccountId) returns (snap: Snapshot)
      ensures snap == DeviceSession.Look(Abs(), account)
    {
      var revision, session := store.ReadStored(account);
      snap := Snapshot(Seen(revision, clock), session);
    }

    /** The read transaction that the task waits for. */
    method RunRead(id: nat) returns (ok: bool)
      requires id in tasks
      modifies `tasks
      ensures var n := old(AfterRead(Abs(), tasks[id].task));
              ok == n.Some? && tasks == if ok then old(tasks)[id := Running(old(tasks[id].tab), n.value)] else old(tasks)
    {
      var tab := tasks[id].tab;
      match tasks[id].task {
        case Checking(account, goal, expected, inner) =>
          var snap := Look(account);
          SetTask(id, tab, CheckRead(account, goal, expected, inner, snap));
        case Choosing(who, goal, expected) =>
          var snap := Look(if who.Some? then who.value else "");
          SetTask(id, tab, ChooseRead(who, goal, expected, if who.Some? then snap else snap.(session := None)));
        case Confirming(account, expected, key) =>
          var snap := Look(account);
          SetTask(id, tab, ConfirmRead(account, expected, key, snap));
        case Recalling(account, key, delegate, expected) =>
          var snap := Look(account);
          SetTask(id, tab, RecallRead(account, key, delegate, expected, snap));
        case Opening(place, revision, alarms) =>
          var snap := Look(place.account);
          SetTask(id, tab, OpenRead(place, revision, alarms, snap));
        case _ => return false;
      }
      ok := true;
    }

    /** `readValidDeviceSession` has found nothing usable: the caller goes on unless a logout came in between. */
    method Reject(account: AccountId, goal: Goal, expected: nat, tab: TabVariables) returns (next: Task)
      ensures next == Rejected(account, goal, expected, tab.Abs())
    {
      next := if expected != tab.generation then Ended(None) else Choosing(Some(account), goal, expected);
    }

    /** The completion handler of a read, and the code up to the next await. */
    method FinishRead(id: nat, tab: TabVariables) returns (ok: bool)
      requires id in tasks
      modifies `tasks, tab
      ensures var n := old(AfterReadDone(tasks[id].task, tab.Abs()));
              if ok then n.Some? && tasks == old(tasks)[id := Running(old(tasks[id].tab), n.value.0)] && tab.Abs() == n.value.1
              else n == None && tasks == old(tasks) && tab.Abs() == old(tab.Abs())
    {
      var next;
      match tasks[id].task {
        case CheckRead(account, goal, expected, inner, snap) =>
          tab.Observe(snap.seen.revision);
          if snap.session.None? {
            next := Reject(account, goal, expected, tab);
          } else {
            next := Judging(account, goal, expected, inner, snap);
          }
        case ChooseRead(who, goal, expected, snap) =>
          tab.Observe(snap.seen.revision);
          next := Minting(who, goal, expected, snap.seen);
        case ConfirmRead(account, expected, key, snap) =>
          tab.Observe(snap.seen.revision);
          if expected != tab.generation || snap.session.None? || snap.session.value.key != key {
            next := Ended(None);
          } else {
            next := Ended(Some(key));
          }
        case RecallRead(account, key, delegate, expected, snap) =>
          tab.Observe(snap.seen.revision);
          if snap.session.None? || snap.session.value.version != V3 || snap.session.value.key != key {
            next := Ended(None);
          } else {
            next := Saving(account, Delegation, expected, snap.seen, snap.session.value.(delegate := Some(delegate)), false);
          }
        case OpenRead(place, revision, alarms, snap) =>
          if alarms != tab.alarms || snap.seen.revision != revision || snap.session.None? {
            next := Ended(None);
          } else {
            next := Watching(place, snap.session.value.key, snap.seen, alarms);
          }
        case _ => return false;
      }
      SetTask(id, tasks[id].tab, next);
      ok := true;
    }

    /** The writing transaction that the task waits for. */
    method RunWrite(id: nat, tab: TabVariables) returns (ok: bool)
      requires id in tasks
      modifies `tasks, store
      ensures var n := old(AfterCommit(Abs(), tasks[id].task, tab.Abs()));
              if ok then n.Some? && tasks == old(tasks)[id := Running(old(tasks[id].tab), n.value.0)] && store.Abs() == n.value.1
              else n == None && tasks == old(tasks) && store.Abs() == old(store.Abs())
    {
      var next;
      match tasks[id].task {
        case Saving(account, goal, expected, seen, session, reuse) =>
          var saved := store.SaveSession(account, session, seen.revision, expected, tab.generation, reuse);
          next := if saved.Some? && goal.Payment? then Confirming(account, expected, saved.value.key) else Ended(None);
        case Updating(scope) =>
          var revision := store.Update(scope);
          next := UpdateDone(revision);
        case Dropping(account, goal, expected) =>
          var revision := store.Update(One(account));
          next := Dropped(account, goal, expected, revision);
        case _ => return false;
      }
      SetTask(id, tasks[id].tab, next);
      ok := true;
    }

    /** The completion of an update: this tab learns the revision, and it is posted to the others. */
    method FinishWrite(id: nat, tab: TabVariables) returns (ok: bool)
      requires id in tasks
      modifies `tasks, `posted, tab
      ensures var n := old(AfterCommitDone(tasks[id].task, tab.Abs()));
              if ok then
                && n.Some? && tasks == old(tasks)[id := Running(old(tasks[id].tab), n.value.0)] && tab.Abs() == n.value.1
                && posted == old(posted) + {n.value.2}
              else n == None && tasks == old(tasks) && tab.Abs() == old(tab.Abs()) && posted == old(posted)
    {
      match tasks[id].task {
        case UpdateDone(revision) =>
          tab.Announce(revision);
          posted := posted + {revision};
          SetTask(id, tasks[id].tab, Ended(None));
        case Dropped(account, goal, expected, revision) =>
          tab.Announce(revision);
          posted := posted + {revision};
          var next := Reject(account, goal, expected, tab);
          SetTask(id, tasks[id].tab, next);
        case _ => return false;
      }
      ok := true;
    }

    /** A key was generated, and for a sign-in the wallet has answered. */
    method Mint(id: nat, tab: TabVariables, key: nat, signer: AccountId, proofOk: bool) returns (ok: bool)
      requires id in tasks
      modifies `tasks, `minted
      ensures var task := old(tasks[id].task); var n := AfterMint(task, tab.Abs(), key, signer, proofOk);
              if ok then
                && n.Some? && key !in old(minted) && tasks == old(tasks)[id := Running(old(tasks[id].tab), n.value)]
                && minted == old(minted)[key := if task.goal.SignIn? then V2 else V3]
              else (n == None || key in old(minted)) && tasks == old(tasks) && minted == old(minted)
    {
      if !tasks[id].task.Minting? || key in minted { return false; }
      var task := tasks[id].task;
      var next;
      if task.goal.SignIn? {
        if !proofOk || task.expected != tab.generation || (task.who.Some? && task.who.value != signer) {
          next := Ended(None);
        } else {
          next := Saving(signer, SignIn, task.expected, task.seen, Session(V2, key, None), false);
        }
      } else if task.who.None? {
        return false;
      } else {
        next := Saving(task.who.value, Payment, task.expected, task.seen, Session(V3, key, None), true);
      }
      minted := minted[key := if task.goal.SignIn? then V2 else V3];
      SetTask(id, tasks[id].tab, next);
      ok := true;
    }

    /** The cryptography of a stored session has finished. */
    method Judge(id: nat, tab: TabVariables, valid: bool) returns (ok: bool)
      requires id in tasks
      modifies `tasks, tab
      ensures var n := old(AfterJudge(tasks[id].task, tab.Abs(), valid));
              if ok then n.Some? && tasks == old(tasks)[id := Running(old(tasks[id].tab), n.value.0)] && tab.Abs() == n.value.1
              else n == None && tasks == old(tasks) && tab.Abs() == old(tab.Abs())
    {
      if !tasks[id].task.Judging? { return false; }
      var next := tab.JudgeSession(tasks[id].task, valid);
      SetTask(id, tasks[id].tab, next);
      ok := true;
    }

    /** The player reports its position; an alarm since the start stops the writing. */
    method SaveProgress(id: nat, tab: TabVariables, position: Position) returns (ok: bool)
      requires id in tasks
      modifies store
      ensures var task := tasks[id].task;
              && ok == task.Watching?
              && store.Abs() == if ok then SavedPosition(old(store.Abs()), task.place, task.device, task.seen.revision, task.alarms != tab.alarms, position)
                                else old(store.Abs())
    {
      var task := tasks[id].task;
      if !task.Watching? { return false; }
      store.SavePosition(task.place, task.device, task.seen.revision, task.alarms != tab.alarms, position);
      ok := true;
    }

    // -------------------------------------------------------------- the event loop

    /** A turn that leaves the variables of the tab alone. */
    method QuietTurn(step: Step, tab: TabVariables) returns (ok: bool)
      requires step.tab in tabs && tabs[step.tab] == tab && step.task in tasks && tasks[step.task].tab == step.tab && Separate()
      requires step.act.Read? || step.act.Commit? || step.act.SavePosition? || step.act.Mint?
      modifies `tasks, `minted, store
      ensures var n := old(Moved(Abs(), step)); if ok then n == Some(Abs()) else n == None && Abs() == old(Abs())
    {
      hide AfterRead, AfterCommit, AfterMint, SavedPosition;
      ghost var before := Tabs();
      match step.act {
        case Read => ok := RunRead(step.task);
        case Commit => ok := RunWrite(step.task, tab);
        case SavePosition(position) => ok := SaveProgress(step.task, tab, position);
        case Mint(key, signer, proofOk) => ok := Mint(step.task, tab, key, signer, proofOk);
      }
      assert Tabs() == before && before[step.tab] == old(tab.Abs());
    }

    /** A turn that may change the variables of the tab. */
    method TabTurn(step: Step, tab: TabVariables) returns (ok: bool)
      requires step.tab in tabs && tabs[step.tab] == tab && step.task in tasks && tasks[step.task].tab == step.tab && Separate()
      requires step.act.ReadDone? || step.act.Judge? || step.act.CommitDone?
      modifies `tasks, `posted, tab
      ensures var n := old(Moved(Abs(), step)); if ok then n == Some(Abs()) else n == None && Abs() == old(Abs())
    {
      hide AfterReadDone, AfterJudge, AfterCommitDone, Moved;
      ghost var w := Abs();
      assert w.tabs[step.tab] == tab.Abs();
      TurnMoves(w, step);
      match step.act {
        case ReadDone => ok := FinishRead(step.task, tab);
        case Judge(valid) => ok := Judge(step.task, tab, valid);
        case CommitDone => ok := FinishWrite(step.task, tab);
      }
      assert Tabs() == w.tabs[step.tab := tab.Abs()];
    }

    /** One turn of the event loop; an act that is not possible now changes nothing. */
    method Perform(step: Step) returns (ok: bool)
      requires Separate()
      modifies `tabs, `tasks, `minted, `posted, store, tabs.Values
      ensures Separate() && fresh(tabs.Values - old(tabs.Values))
      ensures var n := old(Moved(Abs(), step)); if ok then n == Some(Abs()) else n == None && Abs() == old(Abs())
    {
      hide Start, AfterRead, AfterReadDone, AfterJudge, AfterMint, AfterCommit, AfterCommitDone, Notified;
      ghost var before := Tabs();
      if step.act.OpenTab? {
        if step.tab in tabs { return false; }
        var tab := new TabVariables();
        tabs := tabs[step.tab := tab];
        assert Tabs() == before[step.tab := Tab(0, None, 0)];
        return true;
      }
      if step.tab !in tabs { return false; }
      var tab := tabs[step.tab];
      if step.act.Deliver? {
        if step.act.revision !in posted { return false; }
        tab.Notify(step.act.revision);
        assert Tabs() == before[step.tab := tab.Abs()];
        return true;
      }
      if step.task !in tasks {
        ok := StartTask(step, tab);
      } else if tasks[step.task].tab != step.tab {
        return false;
      } else if step.act.Read? || step.act.Commit? || step.act.SavePosition? || step.act.Mint? {
        ok := QuietTurn(step, tab);
      } else if step.act.ReadDone? || step.act.Judge? || step.act.CommitDone? {
        ok := TabTurn(step, tab);
      } else {
        return false;
      }
    }

    /** A session or watch position that a task of this browser still holds was read, at its revision, from this browser's store. */
    lemma HeldWasRead(id: nat, seen: Seen)
      requires Valid() && Holds(Abs(), id, seen)
      ensures seen.at < |run.steps| && seen.revision == Rev(run.worlds[seen.at].store) <= Rev(store.Abs())
    {
      hide Holds, Rev;
      SeenAreReads(run, |run.steps|, id, seen);
      RevisionsGrow(run, seen.at, |run.steps|);
    }

    /** A write that would still be accepted was prepared since the last clear or suspend in this browser. */
    lemma AcceptedIsFresh(id: nat, seen: Seen, c: nat)
      requires Valid() && Holds(Abs(), id, seen) && seen.revision == Rev(store.Abs())
      requires seen.at <= c < |run.steps|
      ensures !Bumps(run.worlds[c], run.steps[c])
    {
      hide Holds, Rev, Bumps;
      HeldWasRead(id, seen);
      if Bumps(run.worlds[c], run.steps[c]) {
        RevisionJumps(run, seen.at, c, |run.steps|);
      }
    }

    /**
     Any turn of any tab: the browser moves to the next world of its run, so that what is proved of
     every run holds of the browser.
     */
    method Execute(step: Step) returns (ok: bool)
      requires Valid()
      modifies this, store, tabs.Values
      ensures Valid() && run.steps == old(run.steps) + [step] && old(run.worlds) <= run.worlds && fresh(tabs.Values - old(tabs.Values))
      ensures ok == old(Moved(Abs(), step)).Some?
    {
      hide Moved, DeviceSession.Valid;
      ok := Perform(step);
      clock := clock + 1;
      RunGrows(run, step);
      run := Run(run.worlds + [Abs()], run.steps + [step]);
    }
  }
}
