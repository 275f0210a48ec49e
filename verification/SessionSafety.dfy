/** Logout and key safety of device sessions, over every interleaving of every tab. */
module SessionSafety {
  import opened Common
  import opened DeviceSession

  // ---------------------------------------------------------------- revisions

  /** The step commits a clear or a suspend. */
  predicate Bumps(w: World, step: Step) {
    Moved(w, step).Some? && step.act.Commit? && step.task in w.tasks
    && (w.tasks[step.task].task.Updating? || w.tasks[step.task].task.Dropping?)
  }

  /** The revision goes up by one with every clear or suspend, also when the whole store is emptied, and never otherwise. */
  lemma RevisionStep(w: World, step: Step)
    ensures Rev(Next(w, step).store) == Rev(w.store) + (if Bumps(w, step) then 1 else 0)
  {
  }

  lemma {:induction false} RevisionsGrow(r: Run, i: nat, j: nat)
    requires Valid(r) && i <= j <= |r.steps|
    ensures Rev(r.worlds[i].store) <= Rev(r.worlds[j].store)
    decreases j
  {
    hide Next;
    if i < j {
      RevisionsGrow(r, i, j - 1);
      assert r.worlds[(j - 1) + 1] == Next(r.worlds[j - 1], r.steps[j - 1]);
      RevisionStep(r.worlds[j - 1], r.steps[j - 1]);
    }
  }

  lemma RevisionJumps(r: Run, i: nat, c: nat, j: nat)
    requires Valid(r) && i <= c < j <= |r.steps| && Bumps(r.worlds[c], r.steps[c])
    ensures Rev(r.worlds[i].store) < Rev(r.worlds[j].store)
  {
    hide Next, Bumps;
    RevisionsGrow(r, i, c);
    RevisionsGrow(r, c + 1, j);
    assert r.worlds[c + 1] == Next(r.worlds[c], r.steps[c]);
    RevisionStep(r.worlds[c], r.steps[c]);
  }

  // ---------------------------------------------------------------- what tasks have read

  /** The snapshot of a read whose completion has still to be used. */
  function SnapOf(task: Task): Option<Snapshot> {
    if task.CheckRead? || task.Judging? || task.ChooseRead? || task.ConfirmRead? || task.RecallRead? || task.OpenRead? then Some(task.snap)
    else None
  }

  /** The revision that the task works with. */
  function SeenOf(task: Task): Option<Seen> {
    if SnapOf(task).Some? then Some(task.snap.seen)
    else if task.Minting? || task.Saving? || task.Watching? then Some(task.seen)
    else None
  }

  /** The account whose session the task's snapshot holds. */
  function AccountOf(task: Task): Option<AccountId>
    requires SnapOf(task).Some?
  {
    if task.ChooseRead? then task.who else if task.OpenRead? then Some(task.place.account) else Some(task.account)
  }

  predicate Holds(w: World, id: nat, seen: Seen) {
    id in w.tasks && SeenOf(w.tasks[id].task) == Some(seen)
  }

  /** A step moves no task but its own. */
  lemma OthersStay(w: World, step: Step, id: nat)
    ensures id != step.task ==> (id in Next(w, step).tasks <==> id in w.tasks)
    ensures id != step.task && id in w.tasks ==> Next(w, step).tasks[id] == w.tasks[id]
    ensures forall k | k in w.minted :: k in Next(w, step).minted
    ensures Moved(w, step).None? ==> Next(w, step).tasks == w.tasks
  {
  }

  lemma ReadSeen(w: World, task: Task)
    requires AfterRead(w, task).Some?
    ensures SeenOf(AfterRead(w, task).value) == Some(Seen(Rev(w.store), w.clock))
  {
  }

  /** Between reads a task keeps the revision it works with, or stops needing it. */
  lemma CompletionSeen(task: Task, tab: Tab, valid: bool, key: nat, signer: AccountId, proofOk: bool)
    ensures AfterReadDone(task, tab).Some? ==> var n := AfterReadDone(task, tab).value.0; SeenOf(n).Some? ==> SeenOf(n) == SeenOf(task)
    ensures AfterJudge(task, tab, valid).Some? ==> SeenOf(AfterJudge(task, tab, valid).value.0).None?
    ensures AfterMint(task, tab, key, signer, proofOk).Some? ==>
              var n := AfterMint(task, tab, key, signer, proofOk).value; SeenOf(n).Some? ==> SeenOf(n) == SeenOf(task)
  {
  }

  lemma CommitSeen(w: World, task: Task, tab: Tab)
    ensures AfterCommit(w, task, tab).Some? ==> SeenOf(AfterCommit(w, task, tab).value.0).None?
    ensures AfterCommitDone(task, tab).Some? ==> SeenOf(AfterCommitDone(task, tab).value.0).None?
  {
  }

  lemma OwnSeenStep(w: World, step: Step, seen: Seen)
    requires Moved(w, step).Some? && Holds(Next(w, step), step.task, seen)
    ensures Holds(w, step.task, seen) || seen == Seen(Rev(w.store), w.clock)
  {
    hide AfterRead, AfterReadDone, AfterJudge, AfterMint, AfterCommit, AfterCommitDone, Rev;
    if step.tab in w.tabs && step.task in w.tasks {
      var task, tab := w.tasks[step.task].task, w.tabs[step.tab];
      match step.act
      case Read => if AfterRead(w, task).Some? { ReadSeen(w, task); }
      case ReadDone => CompletionSeen(task, tab, true, 0, "", true);
      case Judge(valid) => CompletionSeen(task, tab, valid, 0, "", true);
      case Mint(key, signer, proofOk) => CompletionSeen(task, tab, true, key, signer, proofOk);
      case Commit => CommitSeen(w, task, tab);
      case CommitDone => CommitSeen(w, task, tab);
      case _ =>
    }
  }

  lemma SeenStep(w: World, step: Step, id: nat, seen: Seen)
    requires Holds(Next(w, step), id, seen)
    ensures Holds(w, id, seen) || seen == Seen(Rev(w.store), w.clock)
  {
    hide Moved, SeenOf, Rev;
    OthersStay(w, step, id);
    if id == step.task && Moved(w, step).Some? {
      OwnSeenStep(w, step, seen);
    }
  }

  lemma {:induction false} ClockCounts(r: Run, n: nat)
    requires Valid(r) && n <= |r.steps|
    ensures r.worlds[n].clock == n
  {
    hide Moved;
    if n > 0 {
      ClockCounts(r, n - 1);
      assert r.worlds[(n - 1) + 1] == Next(r.worlds[n - 1], r.steps[n - 1]);
    }
  }

  /** The revision a task works with was the store's at the step of its read. */
  lemma {:induction false} SeenAreReads(r: Run, n: nat, id: nat, seen: Seen)
    requires Valid(r) && n <= |r.steps| && Holds(r.worlds[n], id, seen)
    ensures seen.at < n && seen.revision == Rev(r.worlds[seen.at].store)
    decreases n
  {
    if n > 0 {
      hide Next, Holds;
      assert r.worlds[(n - 1) + 1] == Next(r.worlds[n - 1], r.steps[n - 1]);
      SeenStep(r.worlds[n - 1], r.steps[n - 1], id, seen);
      ClockCounts(r, n - 1);
      if Holds(r.worlds[n - 1], id, seen) {
        SeenAreReads(r, n - 1, id, seen);
      }
    }
  }

  // ---------------------------------------------------------------- no stale writes

  /** The step writes a session or a position that was prepared with the snapshot. */
  predicate Writes(w: World, step: Step, seen: Seen) {
    && Moved(w, step).Some? && Holds(w, step.task, seen) && Next(w, step).store != w.store
    && ((step.act.Commit? && w.tasks[step.task].task.Saving?) || (step.act.SavePosition? && w.tasks[step.task].task.Watching?))
  }

  /** Nothing else ever changes the store. */
  lemma StoreChangesOnlyBy(w: World, step: Step)
    requires Next(w, step).store != w.store
    ensures Bumps(w, step) || exists seen :: Writes(w, step, seen)
  {
    if !Bumps(w, step) {
      assert Writes(w, step, w.tasks[step.task].task.seen);
    }
  }

  lemma WritesNeedRevision(w: World, step: Step, seen: Seen)
    requires Writes(w, step, seen)
    ensures Rev(w.store) == seen.revision
  {
  }

  /**
   Between the read that prepares a session or a watch position, in any tab, and the commit that
   writes it, no clear and no suspend commits in any tab: what was prepared before a logout is never written after it.
   */
  lemma NoStaleWrite(r: Run, j: nat, c: nat, seen: Seen)
    requires Valid(r) && j < |r.steps| && Writes(r.worlds[j], r.steps[j], seen)
    requires seen.at <= c < j
    ensures !Bumps(r.worlds[c], r.steps[c])
  {
    assert Holds(r.worlds[j], r.steps[j].task, seen);
    WritesNeedRevision(r.worlds[j], r.steps[j], seen);
    hide Writes, Next, Bumps, Holds;
    SeenAreReads(r, j, r.steps[j].task, seen);
    if Bumps(r.worlds[c], r.steps[c]) {
      RevisionJumps(r, seen.at, c, j);
    }
  }

  // ---------------------------------------------------------------- old keys

  /** The step commits a clear that removes the account's session. */
  predicate Clears(w: World, step: Step, a: AccountId) {
    Bumps(w, step)
    && var task := w.tasks[step.task].task;
    if task.Dropping? then task.account == a else task.scope == Everything || task.scope == One(a)
  }

  /** Nothing that the task read or prepared for the account after step `c` involves an old key. */
  predicate FreshTask(task: Task, a: AccountId, c: nat, minted: map<nat, Version>) {
    && (SnapOf(task).Some? && task.snap.seen.at > c && AccountOf(task) == Some(a) && task.snap.session.Some? ==>
          task.snap.session.value.key !in minted)
    && (task.Saving? && task.seen.at > c && task.account == a ==> task.session.key !in minted)
  }

  ghost predicate Fresh(w: World, a: AccountId, c: nat, minted: map<nat, Version>) {
    && (forall k | k in minted :: k in w.minted)
    && (a in w.store.sessions ==> w.store.sessions[a].key !in minted)
    && (forall id {:trigger w.tasks[id]} | id in w.tasks :: FreshTask(w.tasks[id].task, a, c, minted))
  }

  lemma FreshRead(w: World, task: Task, a: AccountId, c: nat, minted: map<nat, Version>)
    requires AfterRead(w, task).Some? && (a in w.store.sessions ==> w.store.sessions[a].key !in minted)
    ensures FreshTask(AfterRead(w, task).value, a, c, minted)
  {
  }

  lemma FreshCompletion(task: Task, tab: Tab, valid: bool, a: AccountId, c: nat, minted: map<nat, Version>)
    requires FreshTask(task, a, c, minted)
    ensures AfterReadDone(task, tab).Some? ==> FreshTask(AfterReadDone(task, tab).value.0, a, c, minted)
    ensures AfterJudge(task, tab, valid).Some? ==> FreshTask(AfterJudge(task, tab, valid).value.0, a, c, minted)
  {
    hide Observing, Invalidated;
  }

  lemma FreshMint(task: Task, tab: Tab, key: nat, signer: AccountId, proofOk: bool, a: AccountId, c: nat, minted: map<nat, Version>)
    requires key !in minted && AfterMint(task, tab, key, signer, proofOk).Some?
    ensures FreshTask(AfterMint(task, tab, key, signer, proofOk).value, a, c, minted)
  {
  }

  lemma FreshCommit(w: World, task: Task, tab: Tab, a: AccountId, c: nat, minted: map<nat, Version>)
    ensures AfterCommit(w, task, tab).Some? ==> FreshTask(AfterCommit(w, task, tab).value.0, a, c, minted)
    ensures AfterCommitDone(task, tab).Some? ==> FreshTask(AfterCommitDone(task, tab).value.0, a, c, minted)
  {
  }

  lemma FreshStart(w: World, step: Step, tab: Tab, a: AccountId, c: nat, minted: map<nat, Version>)
    requires step.task !in w.tasks && Start(w, step, tab).Some?
    ensures FreshTask(Start(w, step, tab).value.tasks[step.task].task, a, c, minted)
  {
  }

  lemma FreshTaskStep(w: World, step: Step, a: AccountId, c: nat, minted: map<nat, Version>)
    requires Fresh(w, a, c, minted) && Moved(w, step).Some? && step.task in Next(w, step).tasks
    ensures FreshTask(Next(w, step).tasks[step.task].task, a, c, minted)
  {
    hide AfterRead, AfterReadDone, AfterJudge, AfterMint, AfterCommit, AfterCommitDone, FreshTask;
    if step.tab in w.tabs && step.task in w.tasks {
      var task, tab := w.tasks[step.task].task, w.tabs[step.tab];
      match step.act
      case Read => if AfterRead(w, task).Some? { FreshRead(w, task, a, c, minted); }
      case ReadDone => FreshCompletion(task, tab, true, a, c, minted);
      case Judge(valid) => FreshCompletion(task, tab, valid, a, c, minted);
      case Mint(key, signer, proofOk) =>
        if AfterMint(task, tab, key, signer, proofOk).Some? && key !in w.minted { FreshMint(task, tab, key, signer, proofOk, a, c, minted); }
      case Commit => FreshCommit(w, task, tab, a, c, minted);
      case CommitDone => FreshCommit(w, task, tab, a, c, minted);
      case _ =>
    } else if step.tab in w.tabs {
      FreshStart(w, step, w.tabs[step.tab], a, c, minted);
    }
  }

  lemma FreshStoreStep(w: World, step: Step, a: AccountId, c: nat, minted: map<nat, Version>)
    requires Fresh(w, a, c, minted)
    requires forall seen | Writes(w, step, seen) :: seen.at > c
    ensures var n := Next(w, step); a in n.store.sessions ==> n.store.sessions[a].key !in minted
  {
    var n := Next(w, step);
    if n.store != w.store && !Bumps(w, step) {
      assert Writes(w, step, w.tasks[step.task].task.seen);
      assert FreshTask(w.tasks[step.task].task, a, c, minted);
    }
  }

  lemma FreshStep(w: World, step: Step, a: AccountId, c: nat, minted: map<nat, Version>)
    requires Fresh(w, a, c, minted)
    requires forall seen | Writes(w, step, seen) :: seen.at > c
    ensures Fresh(Next(w, step), a, c, minted)
  {
    var n := Next(w, step);
    FreshStoreStep(w, step, a, c, minted);
    hide Next, Moved, FreshTask, Writes;
    forall id | id in n.tasks
      ensures FreshTask(n.tasks[id].task, a, c, minted)
    {
      OthersStay(w, step, id);
      if id == step.task && Moved(w, step).Some? {
        FreshTaskStep(w, step, a, c, minted);
      }
    }
    OthersStay(w, step, 0);
  }

  lemma ClearedIsFresh(r: Run, c: nat, a: AccountId)
    requires Valid(r) && c < |r.steps| && Clears(r.worlds[c], r.steps[c], a)
    ensures Fresh(r.worlds[c + 1], a, c, r.worlds[c].minted)
  {
    var w, n := r.worlds[c], r.worlds[c + 1];
    assert n == Next(w, r.steps[c]);
    assert a !in n.store.sessions && n.minted == w.minted;
    forall id | id in n.tasks
      ensures FreshTask(n.tasks[id].task, a, c, w.minted)
    {
      var seen := SeenOf(n.tasks[id].task);
      if seen.Some? {
        assert Holds(n, id, seen.value);
        SeenAreReads(r, c + 1, id, seen.value);
      }
    }
  }

  /** No device key that existed when an account's session was cleared is ever stored for the account again. */
  lemma {:induction false} OldKeysNeverReturn(r: Run, c: nat, j: nat, a: AccountId)
    requires Valid(r) && c < j <= |r.steps| && Clears(r.worlds[c], r.steps[c], a)
    ensures Fresh(r.worlds[j], a, c, r.worlds[c].minted)
    ensures a in r.worlds[j].store.sessions ==> r.worlds[j].store.sessions[a].key !in r.worlds[c].minted
    decreases j
  {
    hide Next, FreshTask, Writes, Bumps;
    if j == c + 1 {
      ClearedIsFresh(r, c, a);
    } else {
      OldKeysNeverReturn(r, c, j - 1, a);
      assert r.worlds[(j - 1) + 1] == Next(r.worlds[j - 1], r.steps[j - 1]);
      forall seen | Writes(r.worlds[j - 1], r.steps[j - 1], seen)
        ensures seen.at > c
      {
        if seen.at <= c {
          NoStaleWrite(r, j - 1, c, seen);
        }
      }
      FreshStep(r.worlds[j - 1], r.steps[j - 1], a, c, r.worlds[c].minted);
    }
  }
}
