/** When tabs that race to prepare a playback device agree on one key. */
module SessionKeys {
  import opened Common
  import opened DeviceSession
  import opened SessionSafety

  // ---------------------------------------------------------------- keys have versions

  /** The session carries a generated key, with the certificate version the key was generated for. */
  predicate Known(minted: map<nat, Version>, s: Session) {
    s.key in minted && minted[s.key] == s.version
  }

  /** What tasks carry; a sign-in saves version 2, a payment keeps a stored version 3 key, a delegation saves a key it read. */
  predicate KnownTask(minted: map<nat, Version>, task: Task) {
    && (SnapOf(task).Some? && task.snap.session.Some? ==> Known(minted, task.snap.session.value))
    && (task.Saving? ==> Known(minted, task.session) && (task.goal.SignIn? <==> task.session.version == V2) && (task.goal.Payment? <==> task.reuse))
    && (task.Confirming? || task.ConfirmRead? ==> task.key in minted && minted[task.key] == V3)
    && (task.Checking? || task.CheckRead? || task.Judging? || task.Dropping? || task.Dropped? || task.Choosing? || task.ChooseRead? || task.Minting?
        ==> !task.goal.Delegation?)
  }

  ghost predicate AllKnown(w: World) {
    && (forall a {:trigger w.store.sessions[a]} | a in w.store.sessions :: Known(w.minted, w.store.sessions[a]))
    && (forall id {:trigger w.tasks[id]} | id in w.tasks :: KnownTask(w.minted, w.tasks[id].task))
  }

  lemma KnownRead(w: World, task: Task)
    requires AllKnown(w) && KnownTask(w.minted, task) && AfterRead(w, task).Some?
    ensures KnownTask(w.minted, AfterRead(w, task).value)
  {
  }

  lemma KnownCompletion(minted: map<nat, Version>, task: Task, tab: Tab, valid: bool)
    requires KnownTask(minted, task)
    ensures AfterReadDone(task, tab).Some? ==> KnownTask(minted, AfterReadDone(task, tab).value.0)
    ensures AfterJudge(task, tab, valid).Some? ==> KnownTask(minted, AfterJudge(task, tab, valid).value.0)
    ensures AfterCommitDone(task, tab).Some? ==> KnownTask(minted, AfterCommitDone(task, tab).value.0)
  {
    hide Observing, Invalidated, Announced;
  }

  lemma KnownMint(minted: map<nat, Version>, task: Task, tab: Tab, key: nat, signer: AccountId, proofOk: bool)
    requires KnownTask(minted, task) && AfterMint(task, tab, key, signer, proofOk).Some?
    ensures KnownTask(minted[key := if task.goal.SignIn? then V2 else V3], AfterMint(task, tab, key, signer, proofOk).value)
  {
  }

  lemma KnownCommit(w: World, task: Task, tab: Tab)
    requires AllKnown(w) && KnownTask(w.minted, task) && AfterCommit(w, task, tab).Some?
    ensures KnownTask(w.minted, AfterCommit(w, task, tab).value.0)
    ensures forall a | a in AfterCommit(w, task, tab).value.1.sessions :: Known(w.minted, AfterCommit(w, task, tab).value.1.sessions[a])
  {
  }

  lemma KnownStart(w: World, step: Step, tab: Tab)
    requires step.task !in w.tasks && Start(w, step, tab).Some?
    ensures KnownTask(w.minted, Start(w, step, tab).value.tasks[step.task].task)
  {
  }

  /** The task that moves. */
  lemma KnownOwnStep(w: World, step: Step)
    requires AllKnown(w) && Moved(w, step).Some? && step.task in Next(w, step).tasks
    ensures KnownTask(Next(w, step).minted, Next(w, step).tasks[step.task].task)
  {
    hide AfterRead, AfterReadDone, AfterJudge, AfterMint, AfterCommit, AfterCommitDone, KnownTask;
    if step.tab in w.tabs && step.task in w.tasks {
      var task, tab := w.tasks[step.task].task, w.tabs[step.tab];
      match step.act
      case Read => if AfterRead(w, task).Some? { KnownRead(w, task); }
      case ReadDone => KnownCompletion(w.minted, task, tab, true);
      case Judge(valid) => KnownCompletion(w.minted, task, tab, valid);
      case Mint(key, signer, proofOk) =>
        if AfterMint(task, tab, key, signer, proofOk).Some? { KnownMint(w.minted, task, tab, key, signer, proofOk); }
      case Commit => if AfterCommit(w, task, tab).Some? { KnownCommit(w, task, tab); }
      case CommitDone => KnownCompletion(w.minted, task, tab, true);
      case _ =>
    } else if step.tab in w.tabs && Start(w, step, w.tabs[step.tab]).Some? {
      KnownStart(w, step, w.tabs[step.tab]);
    }
  }

  lemma KnownStoreStep(w: World, step: Step)
    requires AllKnown(w)
    ensures forall a | a in Next(w, step).store.sessions :: Known(w.minted, Next(w, step).store.sessions[a])
  {
    hide AfterRead, AfterReadDone, AfterJudge, AfterMint, AfterCommit, AfterCommitDone, KnownTask;
    if step.act.Commit? && step.task in w.tasks && step.tab in w.tabs && AfterCommit(w, w.tasks[step.task].task, w.tabs[step.tab]).Some? {
      KnownCommit(w, w.tasks[step.task].task, w.tabs[step.tab]);
    }
  }

  /** A key keeps its version. */
  lemma MintedStays(w: World, step: Step, k: nat)
    ensures k in w.minted ==> k in Next(w, step).minted && Next(w, step).minted[k] == w.minted[k]
  {
  }

  lemma KnownStays(w: World, step: Step, task: Task)
    requires KnownTask(w.minted, task)
    ensures KnownTask(Next(w, step).minted, task)
  {
    hide Next;
    if SnapOf(task).Some? && task.snap.session.Some? {
      MintedStays(w, step, task.snap.session.value.key);
    }
    if task.Saving? {
      MintedStays(w, step, task.session.key);
    }
    if task.Confirming? || task.ConfirmRead? {
      MintedStays(w, step, task.key);
    }
  }

  lemma KnownStep(w: World, step: Step)
    requires AllKnown(w)
    ensures AllKnown(Next(w, step))
  {
    hide Next, Moved, KnownTask;
    var n := Next(w, step);
    KnownStoreStep(w, step);
    forall a | a in n.store.sessions
      ensures Known(n.minted, n.store.sessions[a])
    {
      MintedStays(w, step, n.store.sessions[a].key);
    }
    forall id | id in n.tasks
      ensures KnownTask(n.minted, n.tasks[id].task)
    {
      OthersStay(w, step, id);
      if id == step.task && Moved(w, step).Some? {
        KnownOwnStep(w, step);
      } else {
        KnownStays(w, step, w.tasks[id].task);
      }
    }
  }

  lemma {:induction false} KeysAreKnown(r: Run, n: nat)
    requires Valid(r) && n <= |r.steps|
    ensures AllKnown(r.worlds[n])
  {
    hide Next;
    if n > 0 {
      KeysAreKnown(r, n - 1);
      assert r.worlds[(n - 1) + 1] == Next(r.worlds[n - 1], r.steps[n - 1]);
      KnownStep(r.worlds[n - 1], r.steps[n - 1]);
    }
  }

  // ---------------------------------------------------------------- snapshots are true

  /** A version 3 session with this key is stored for the account. */
  predicate HasKey(s: Store, a: AccountId, key: nat) {
    a in s.sessions && s.sessions[a].version == V3 && s.sessions[a].key == key
  }

  /** The task works from the session that was stored when it read. */
  predicate TrueTask(r: Run, task: Task)
    requires SeenOf(task).Some? ==> SeenOf(task).value.at < |r.worlds|
  {
    && (SnapOf(task).Some? && AccountOf(task).Some? ==>
          task.snap.session == DeviceSession.SessionOf(r.worlds[task.snap.seen.at].store, AccountOf(task).value))
    && (task.Saving? && task.goal.Delegation? ==> HasKey(r.worlds[task.seen.at].store, task.account, task.session.key))
  }

  lemma TrueCompletion(r: Run, task: Task, tab: Tab)
    requires SeenOf(task).Some? ==> SeenOf(task).value.at < |r.worlds|
    requires TrueTask(r, task) && AfterReadDone(task, tab).Some?
    ensures SeenOf(AfterReadDone(task, tab).value.0).Some? ==> SeenOf(AfterReadDone(task, tab).value.0) == SeenOf(task)
    ensures TrueTask(r, AfterReadDone(task, tab).value.0)
  {
    hide Observing;
  }

  lemma NoDelegation(w: World, task: Task, tab: Tab, valid: bool)
    ensures AfterJudge(task, tab, valid).Some? ==> !AfterJudge(task, tab, valid).value.0.Saving?
    ensures AfterCommit(w, task, tab).Some? ==> !AfterCommit(w, task, tab).value.0.Saving?
    ensures AfterCommitDone(task, tab).Some? ==> !AfterCommitDone(task, tab).value.0.Saving?
  {
  }

  lemma MintIsNoDelegation(minted: map<nat, Version>, task: Task, tab: Tab, key: nat, signer: AccountId, proofOk: bool)
    requires KnownTask(minted, task)
    ensures var n := AfterMint(task, tab, key, signer, proofOk);
            n.Some? ==> SnapOf(n.value).None? && (n.value.Saving? ==> !n.value.goal.Delegation?) && (SeenOf(n.value).Some? ==> SeenOf(n.value) == SeenOf(task))
  {
  }

  lemma TrueOwnStep(r: Run, n: nat, step: Step)
    requires n < |r.worlds| && r.worlds[n].clock == n && Moved(r.worlds[n], step).Some?
    requires step.task in r.worlds[n].tasks ==>
               var task := r.worlds[n].tasks[step.task].task;
               (SeenOf(task).Some? ==> SeenOf(task).value.at < n) && TrueTask(r, task) && KnownTask(r.worlds[n].minted, task)
    requires step.task in Next(r.worlds[n], step).tasks
    ensures var task := Next(r.worlds[n], step).tasks[step.task].task;
            (SeenOf(task).Some? ==> SeenOf(task).value.at <= n) && TrueTask(r, task)
  {
    hide AfterReadDone, AfterJudge, AfterCommit, AfterCommitDone, KnownTask, Rev;
    var w := r.worlds[n];
    if step.tab in w.tabs && step.task in w.tasks {
      var task, tab := w.tasks[step.task].task, w.tabs[step.tab];
      match step.act
      case ReadDone => if AfterReadDone(task, tab).Some? { TrueCompletion(r, task, tab); }
      case Judge(valid) => CompletionSeen(task, tab, valid, 0, "", true); NoDelegation(w, task, tab, valid);
      case Mint(key, signer, proofOk) => MintIsNoDelegation(w.minted, task, tab, key, signer, proofOk);
      case Commit => CommitSeen(w, task, tab); NoDelegation(w, task, tab, true);
      case CommitDone => CommitSeen(w, task, tab); NoDelegation(w, task, tab, true);
      case _ =>
    }
  }

  lemma {:induction false} TasksAreTrue(r: Run, n: nat, id: nat)
    requires Valid(r) && n <= |r.steps| && id in r.worlds[n].tasks
    ensures var task := r.worlds[n].tasks[id].task; (SeenOf(task).Some? ==> SeenOf(task).value.at < n) && TrueTask(r, task)
    decreases n
  {
    hide Next, Moved, TrueTask, KnownTask;
    if n > 0 {
      var w, step := r.worlds[n - 1], r.steps[n - 1];
      assert r.worlds[(n - 1) + 1] == Next(w, step);
      OthersStay(w, step, id);
      ClockCounts(r, n - 1);
      KeysAreKnown(r, n - 1);
      if id in w.tasks {
        TasksAreTrue(r, n - 1, id);
      }
      if id == step.task && Moved(w, step).Some? {
        TrueOwnStep(r, n - 1, step);
      }
    }
  }

  // ---------------------------------------------------------------- one key

  /** The step commits a save for the account, and the save is not aborted. */
  predicate Saves(w: World, step: Step, a: AccountId, goal: Goal) {
    && Moved(w, step).Some? && step.act.Commit? && step.tab in w.tabs && step.task in w.tasks
    && var task := w.tasks[step.task].task;
    && task.Saving? && task.account == a && task.goal == goal
    && Rev(w.store) == task.seen.revision && task.expected == w.tabs[step.tab].generation
  }

  /** From step `i` on, before step `n`, no clear, no suspend and no sign-in of the account commits. */
  ghost predicate Quiet(r: Run, i: nat, n: nat, a: AccountId) {
    && n <= |r.steps| && n <= |r.worlds|
    && forall c {:trigger r.steps[c]} | i <= c < n :: !Bumps(r.worlds[c], r.steps[c]) && !Saves(r.worlds[c], r.steps[c], a, SignIn)
  }

  /** Nor does a delegation that had read the store before step `i`. */
  ghost predicate Undisturbed(r: Run, i: nat, n: nat, a: AccountId) {
    && Quiet(r, i, n, a)
    && forall c {:trigger r.steps[c]} | i <= c < n && Saves(r.worlds[c], r.steps[c], a, Delegation) ::
         r.worlds[c].tasks[r.steps[c].task].task.seen.at >= i
  }

  /** The key that is stored after the step, when this one was stored before: only a delegation brings another. */
  function KeyAfter(w: World, step: Step, a: AccountId, key: nat): nat {
    if Saves(w, step, a, Delegation) then w.tasks[step.task].task.session.key else key
  }

  lemma SessionStep(w: World, step: Step, a: AccountId, key: nat)
    requires AllKnown(w) && HasKey(w.store, a, key) && !Bumps(w, step) && !Saves(w, step, a, SignIn)
    ensures HasKey(Next(w, step).store, a, KeyAfter(w, step, a, key))
  {
    if step.act.Commit? && step.task in w.tasks {
      assert KnownTask(w.minted, w.tasks[step.task].task);
    }
  }

  lemma DelegatedKey(r: Run, n: nat, a: AccountId)
    requires Valid(r) && n < |r.steps| && Saves(r.worlds[n], r.steps[n], a, Delegation)
    ensures r.steps[n].task in r.worlds[n].tasks
    ensures var task := r.worlds[n].tasks[r.steps[n].task].task;
            task.Saving? && task.seen.at < n && HasKey(r.worlds[task.seen.at].store, a, task.session.key)
  {
    hide Next, HasKey;
    TasksAreTrue(r, n, r.steps[n].task);
  }

  lemma SameHasKey(s: Store, a: AccountId, k: nat, l: nat)
    requires HasKey(s, a, k) && HasKey(s, a, l)
    ensures k == l
  {
  }

  /** A stored version 3 key stays while nothing disturbs the account, from some step before it was stored. */
  lemma {:induction false} KeyStays(r: Run, t: nat, i: nat, n: nat, a: AccountId, key: nat)
    requires Valid(r) && t <= i <= n && Undisturbed(r, t, n, a) && HasKey(r.worlds[i].store, a, key)
    ensures HasKey(r.worlds[n].store, a, key)
    decreases n
  {
    hide Next, Bumps, HasKey, Saves;
    if i < n {
      var w, step := r.worlds[n - 1], r.steps[n - 1];
      assert r.worlds[(n - 1) + 1] == Next(w, step);
      KeyStays(r, t, i, n - 1, a, key);
      KeysAreKnown(r, n - 1);
      SessionStep(w, step, a, key);
      if Saves(w, step, a, Delegation) {
        DelegatedKey(r, n - 1, a);
        var task := w.tasks[step.task].task;
        KeyStays(r, t, task.seen.at, n - 1, a, task.session.key);
        SameHasKey(w.store, a, key, task.session.key);
      }
    }
  }

  /** Step `n` ends a call of `preparePlaybackDevice` for the account with this key; its last read ran at step `at`. */
  predicate Returns(w: World, step: Step, a: AccountId, key: nat, at: nat) {
    && Moved(w, step).Some? && step.act.ReadDone? && step.task in w.tasks && step.task in Next(w, step).tasks
    && var task := w.tasks[step.task].task;
    && task.ConfirmRead? && task.account == a && task.snap.seen.at == at
    && Next(w, step).tasks[step.task].task == Ended(Some(key))
  }

  lemma ReturnsItsKey(w: World, step: Step, a: AccountId, key: nat, at: nat)
    requires Returns(w, step, a, key, at)
    ensures var task := w.tasks[step.task].task; task.key == key && task.snap.session.Some? && task.snap.session.value.key == key
  {
  }

  /** A returned key was the stored version 3 key at the last read. */
  lemma ReturnedKeyWasStored(r: Run, n: nat, a: AccountId, key: nat, at: nat)
    requires Valid(r) && n < |r.steps| && Returns(r.worlds[n], r.steps[n], a, key, at)
    ensures at < n && HasKey(r.worlds[at].store, a, key)
  {
    var w, step := r.worlds[n], r.steps[n];
    var task := w.tasks[step.task].task;
    ReturnsItsKey(w, step, a, key, at);
    hide Next, Moved, Returns;
    TasksAreTrue(r, n, step.task);
    KeysAreKnown(r, n);
    assert KnownTask(w.minted, task);
  }

  /**
   Calls of `preparePlaybackDevice` in any tabs return the same key, provided that from some step
   on, no later than the earlier of their last reads and until the later one, no clear, suspend or
   sign-in of the account commits, and no delegation commits that had read the store before that step.
   */
  lemma RacingCallsAgree(r: Run, m: nat, n: nat, a: AccountId, key: nat, other: nat, t: nat, i: nat, j: nat)
    requires Valid(r) && m < |r.steps| && n < |r.steps|
    requires Returns(r.worlds[m], r.steps[m], a, key, i) && Returns(r.worlds[n], r.steps[n], a, other, j)
    requires t <= i <= j && Undisturbed(r, t, j, a)
    ensures key == other
  {
    hide Next, Moved, Returns, Undisturbed;
    ReturnedKeyWasStored(r, m, a, key, i);
    ReturnedKeyWasStored(r, n, a, other, j);
    KeyStays(r, t, i, j, a, key);
    SameHasKey(r.worlds[j].store, a, key, other);
  }

  /** A revision at which the account has not signed in is undisturbed from its beginning. */
  lemma {:induction false} UndisturbedWithoutSignIn(r: Run, t: nat, j: nat, a: AccountId) returns (start: nat)
    requires Valid(r) && t <= j <= |r.steps| && Rev(r.worlds[t].store) == Rev(r.worlds[j].store)
    requires forall c {:trigger r.steps[c]} | 0 <= c < j && Rev(r.worlds[c].store) == Rev(r.worlds[j].store) :: !Saves(r.worlds[c], r.steps[c], a, SignIn)
    ensures start <= t && Undisturbed(r, start, j, a)
    decreases t
  {
    hide Next, Moved, Bumps;
    if t > 0 && Rev(r.worlds[t - 1].store) == Rev(r.worlds[j].store) {
      start := UndisturbedWithoutSignIn(r, t - 1, j, a);
    } else {
      start := t;
      forall c | t <= c < j
        ensures !Bumps(r.worlds[c], r.steps[c]) && Rev(r.worlds[c].store) == Rev(r.worlds[j].store)
        ensures Saves(r.worlds[c], r.steps[c], a, Delegation) ==> r.worlds[c].tasks[r.steps[c].task].task.seen.at >= t
      {
        RevisionsGrow(r, t, c);
        RevisionsGrow(r, c, j);
        if Bumps(r.worlds[c], r.steps[c]) {
          RevisionJumps(r, t, c, j);
        }
        if Saves(r.worlds[c], r.steps[c], a, Delegation) {
          var seen := r.worlds[c].tasks[r.steps[c].task].task.seen;
          SeenAreReads(r, c, r.steps[c].task, seen);
          if seen.at < t {
            RevisionsGrow(r, seen.at, t - 1);
            RevisionsGrow(r, t - 1, t);
          }
        }
      }
    }
  }

  // ---------------------------------------------------------------- exactly when they agree

  /** The key that the delegations committed from step `i` on, before step `n`, leave in the store. */
  function LastDelegated(r: Run, i: nat, n: nat, a: AccountId, key: nat): nat
    requires n <= |r.steps| && n <= |r.worlds|
  {
    if n <= i then key else KeyAfter(r.worlds[n - 1], r.steps[n - 1], a, LastDelegated(r, i, n - 1, a, key))
  }

  /** No delegation of the account commits from step `i` on, before step `n`, or the last one that does carries this key. */
  ghost predicate LastDelegationCarries(r: Run, i: nat, n: nat, a: AccountId, key: nat)
    requires n <= |r.steps| && n <= |r.worlds|
  {
    forall c {:trigger r.steps[c]} | i <= c < n && Saves(r.worlds[c], r.steps[c], a, Delegation) ::
      (exists d {:trigger r.steps[d]} :: c < d < n && Saves(r.worlds[d], r.steps[d], a, Delegation))
      || r.worlds[c].tasks[r.steps[c].task].task.session.key == key
  }

  lemma {:induction false} LastDelegatedCarries(r: Run, i: nat, n: nat, a: AccountId, key: nat)
    requires i <= n <= |r.steps| && n <= |r.worlds|
    ensures LastDelegated(r, i, n, a, key) == key <==> LastDelegationCarries(r, i, n, a, key)
    decreases n
  {
    hide Saves;
    if i < n {
      LastDelegatedCarries(r, i, n - 1, a, key);
    }
  }

  /** Without clears, suspends and sign-ins, delegations alone decide which key is stored. */
  lemma {:induction false} DelegationsDecide(r: Run, i: nat, n: nat, a: AccountId, key: nat)
    requires Valid(r) && i <= n && Quiet(r, i, n, a) && HasKey(r.worlds[i].store, a, key)
    ensures HasKey(r.worlds[n].store, a, LastDelegated(r, i, n, a, key))
    decreases n
  {
    hide Next, Bumps, HasKey, Saves, KeyAfter;
    if i < n {
      DelegationsDecide(r, i, n - 1, a, key);
      KeysAreKnown(r, n - 1);
      assert r.worlds[(n - 1) + 1] == Next(r.worlds[n - 1], r.steps[n - 1]);
      SessionStep(r.worlds[n - 1], r.steps[n - 1], a, LastDelegated(r, i, n - 1, a, key));
    }
  }

  /**
   With no clear, suspend or sign-in of the account between their last reads, two calls return the
   same key if and only if no delegation commits in between or the last one to commit carries the
   first call's key; in every case the second call returns what the delegations left.
   */
  lemma RacingCallsAgreeIff(r: Run, m: nat, n: nat, a: AccountId, key: nat, other: nat, i: nat, j: nat)
    requires Valid(r) && m < |r.steps| && n < |r.steps|
    requires Returns(r.worlds[m], r.steps[m], a, key, i) && Returns(r.worlds[n], r.steps[n], a, other, j)
    requires i <= j && Quiet(r, i, j, a)
    ensures key == other <==> LastDelegationCarries(r, i, j, a, key)
    ensures other == LastDelegated(r, i, j, a, key)
  {
    hide Next, Moved, Returns, Quiet, Saves, HasKey;
    ReturnedKeyWasStored(r, m, a, key, i);
    ReturnedKeyWasStored(r, n, a, other, j);
    DelegationsDecide(r, i, j, a, key);
    LastDelegatedCarries(r, i, j, a, key);
    SameHasKey(r.worlds[j].store, a, other, LastDelegated(r, i, j, a, key));
  }
}
