/**
 Device sessions shared by the tabs of one browser: an IndexedDB store with a revision, module
 variables in each tab, and async functions cut at their awaits. Transactions are atomic; their
 completion handlers run later. Keys that are generated are new; signatures and hashes are outcomes.
 */
module DeviceSession {
  import opened Common

  datatype Version = V2 | V3

  datatype Session = Session(version: Version, key: nat, delegate: Option<string>)

  datatype Position = Position(position: real, duration: real, updatedAt: nat)

  /** A playback: account, job, generation, playback id. */
  datatype Place = Place(account: AccountId, job: string, generation: nat, playback: string)

  datatype Store = Store(revision: Option<nat>, sessions: map<AccountId, Session>, positions: map<Place, Position>)

  // ---------------------------------------------------------------- transactions

  /** What an update removes: nothing for an account switch, one account's session, or everything. */
  datatype Scope = Nothing | One(account: AccountId) | Everything

  function Rev(s: Store): nat {
    s.revision.GetOr(0)
  }

  /** The transaction of `updateDeviceSession`. */
  function Updated(s: Store, scope: Scope): Store {
    var next := Some(Rev(s) + 1);
    match scope
    case Nothing => s.(revision := next)
    case One(account) => s.(revision := next, sessions := s.sessions - {account})
    case Everything => Store(next, map[], map[])
  }

  function SessionOf(s: Store, account: AccountId): Option<Session> {
    if account in s.sessions then Some(s.sessions[account]) else None
  }

  /** The transaction of `saveSession`: the stored session afterwards, or `None` when it aborts. */
  function Saved(s: Store, account: AccountId, session: Session, revision: nat, current: bool, reuse: bool): Option<(Store, Session)> {
    if Rev(s) != revision || !current then None
    else if reuse && account in s.sessions && s.sessions[account].version == V3 then Some((s, s.sessions[account]))
    else Some((s.(sessions := s.sessions[account := session]), session))
  }

  /** `resumablePosition`, for finite numbers. */
  predicate Resumable(p: Position) {
    p.updatedAt > 0 && p.position >= 10.0 && p.duration - p.position > 15.0
  }

  /** The transaction of a progress `save`. */
  function SavedPosition(s: Store, place: Place, device: nat, revision: nat, stopped: bool, p: Position): Store {
    var session := SessionOf(s, place.account);
    if stopped || Rev(s) != revision || session.None? || session.value.key != device then s
    else s.(positions := if Resumable(p) then s.positions[place := p] else s.positions - {place})
  }

  // ---------------------------------------------------------------- tabs and tasks

  /** `alarms` counts the calls of the listeners that stop players and progress. */
  datatype Tab = Tab(generation: nat, observed: Option<nat>, alarms: nat)

  function Invalidated(t: Tab): Tab {
    t.(generation := t.generation + 1, alarms := t.alarms + 1)
  }

  /** The completion handler of `readStored`. */
  function Observing(t: Tab, revision: nat): Tab {
    if t.observed.None? then t.(observed := Some(revision))
    else if revision > t.observed.value then t.(observed := Some(revision), alarms := t.alarms + 1)
    else t
  }

  /** A revision arriving from another tab. */
  function Notified(t: Tab, revision: nat): Tab {
    if revision > t.observed.GetOr(0) then Invalidated(t.(observed := Some(revision))) else t
  }

  /** A revision, and the number of steps after which it was read. */
  datatype Seen = Seen(revision: nat, at: nat)

  /** What a read transaction saw. */
  datatype Snapshot = Snapshot(seen: Seen, session: Option<Session>)

  datatype Goal = SignIn | Payment | Delegation

  /** Where a running async function stands; the comments name the await it is at. */
  datatype Task =
    | Checking(account: AccountId, goal: Goal, expected: nat, inner: nat) // the read of readValidDeviceSession
    | CheckRead(account: AccountId, goal: Goal, expected: nat, inner: nat, snap: Snapshot) // its completion
    | Judging(account: AccountId, goal: Goal, expected: nat, inner: nat, snap: Snapshot) // its cryptography
    | Dropping(account: AccountId, goal: Goal, expected: nat) // the clear of an invalid session
    | Dropped(account: AccountId, goal: Goal, expected: nat, revision: nat) // its completion
    | Choosing(who: Option<AccountId>, goal: Goal, expected: nat) // the second read, for the revision
    | ChooseRead(who: Option<AccountId>, goal: Goal, expected: nat, snap: Snapshot)
    | Minting(who: Option<AccountId>, goal: Goal, expected: nat, seen: Seen) // key generation, signing
    | Saving(account: AccountId, goal: Goal, expected: nat, seen: Seen, session: Session, reuse: bool) // saveSession
    | Confirming(account: AccountId, expected: nat, key: nat) // the last read of preparePlaybackDevice
    | ConfirmRead(account: AccountId, expected: nat, key: nat, snap: Snapshot)
    | Recalling(account: AccountId, key: nat, delegate: string, expected: nat) // rememberPlaybackDelegate
    | RecallRead(account: AccountId, key: nat, delegate: string, expected: nat, snap: Snapshot)
    | Updating(scope: Scope) // clearDeviceSession, suspendDeviceSession
    | UpdateDone(revision: nat)
    | Opening(place: Place, revision: nat, alarms: nat) // openWatchProgress
    | OpenRead(place: Place, revision: nat, alarms: nat, snap: Snapshot)
    | Watching(place: Place, device: nat, seen: Seen, alarms: nat)
    | Ended(returned: Option<nat>) // the key is what preparePlaybackDevice returned

  datatype Running = Running(tab: nat, task: Task)

  /** `minted` records the keys generated so far, with the certificate version each was generated for. */
  datatype World = World(
    store: Store,
    tabs: map<nat, Tab>,
    tasks: map<nat, Running>,
    minted: map<nat, Version>,
    posted: set<nat>,
    clock: nat)

  datatype Act =
    | OpenTab
    | StartSignIn(account: Option<AccountId>)
    | StartPayment(payer: AccountId)
    | StartRemember(owner: AccountId, key: nat, delegate: string)
    | StartUpdate(scope: Scope)
    | StartWatching(place: Place)
    | Read
    | ReadDone
    | Judge(valid: bool)
    | Mint(newKey: nat, signer: AccountId, proofOk: bool)
    | Commit
    | CommitDone
    | SavePosition(position: Position)
    | Deliver(revision: nat)

  /** One step of one task in one tab; starting acts use an unused task number. */
  datatype Step = Step(tab: nat, task: nat, act: Act)

  function WithTask(w: World, step: Step, task: Task): World {
    w.(tasks := w.tasks[step.task := Running(step.tab, task)])
  }

  function WithTab(w: World, step: Step, tab: Tab): World {
    w.(tabs := w.tabs[step.tab := tab])
  }

  /** What a new task does before its first await. */
  function Start(w: World, step: Step, tab: Tab): Option<World> {
    match step.act
    case StartSignIn(account) =>
      Some(WithTask(w, step, if account.Some? then Checking(account.value, SignIn, tab.generation, tab.generation)
                             else Choosing(None, SignIn, tab.generation)))
    case StartPayment(account) => Some(WithTask(w, step, Checking(account, Payment, tab.generation, tab.generation)))
    case StartRemember(account, key, delegate) => Some(WithTask(w, step, Recalling(account, key, delegate, tab.generation)))
    case StartUpdate(scope) => Some(WithTask(WithTab(w, step, Invalidated(tab)), step, Updating(scope)))
    case StartWatching(place) =>
      Some(WithTask(w, step, if tab.observed.Some? then Opening(place, tab.observed.value, tab.alarms) else Ended(None)))
    case _ => None
  }

  function Look(w: World, account: AccountId): Snapshot {
    Snapshot(Seen(Rev(w.store), w.clock), SessionOf(w.store, account))
  }

  /** The pending read transaction of a task runs. */
  function AfterRead(w: World, task: Task): Option<Task> {
    match task
    case Checking(account, goal, expected, inner) => Some(CheckRead(account, goal, expected, inner, Look(w, account)))
    case Choosing(who, goal, expected) =>
      Some(ChooseRead(who, goal, expected, if who.Some? then Look(w, who.value) else Snapshot(Seen(Rev(w.store), w.clock), None)))
    case Confirming(account, expected, key) => Some(ConfirmRead(account, expected, key, Look(w, account)))
    case Recalling(account, key, delegate, expected) => Some(RecallRead(account, key, delegate, expected, Look(w, account)))
    case Opening(place, revision, alarms) => Some(OpenRead(place, revision, alarms, Look(w, place.account)))
    case _ => None
  }

  /** `readValidDeviceSession` found nothing usable. */
  function Rejected(account: AccountId, goal: Goal, expected: nat, tab: Tab): Task {
    if expected != tab.generation then Ended(None) else Choosing(Some(account), goal, expected)
  }

  /** The completion handler of a read, and the code up to the next await. */
  function AfterReadDone(task: Task, tab: Tab): Option<(Task, Tab)> {
    match task
    case CheckRead(account, goal, expected, inner, snap) =>
      var t := Observing(tab, snap.seen.revision);
      Some((if snap.session.None? then Rejected(account, goal, expected, t) else Judging(account, goal, expected, inner, snap), t))
    case ChooseRead(who, goal, expected, snap) => Some((Minting(who, goal, expected, snap.seen), Observing(tab, snap.seen.revision)))
    case ConfirmRead(account, expected, key, snap) =>
      var t := Observing(tab, snap.seen.revision);
      Some((Ended(if expected == t.generation && snap.session.Some? && snap.session.value.key == key then Some(key) else None), t))
    case RecallRead(account, key, delegate, expected, snap) =>
      var t := Observing(tab, snap.seen.revision);
      var usable := snap.session.Some? && snap.session.value.version == V3 && snap.session.value.key == key;
      Some((if usable then Saving(account, Delegation, expected, snap.seen, snap.session.value.(delegate := Some(delegate)), false) else Ended(None), t))
    case OpenRead(place, revision, alarms, snap) =>
      Some((if alarms != tab.alarms || snap.seen.revision != revision || snap.session.None? then Ended(None)
            else Watching(place, snap.session.value.key, snap.seen, alarms), tab))
    case _ => None
  }

  /** `readValidDeviceSession` after its cryptography: the session counts only if nothing moved meanwhile. */
  function AfterJudge(task: Task, tab: Tab, valid: bool): Option<(Task, Tab)> {
    if !task.Judging? then None
    else
      var session := task.snap.session;
      if !valid && task.inner == tab.generation then
        var t := Invalidated(tab);
        Some((Dropping(task.account, task.goal, t.generation), t))
      else if !valid || task.inner != tab.generation || tab.observed != Some(task.snap.seen.revision) || session.None? then
        Some((Rejected(task.account, task.goal, task.expected, tab), tab))
      else if task.expected != tab.generation then Some((Ended(None), tab))
      else if task.goal.SignIn? then Some((Ended(None), tab))
      else if session.value.version == V3 then Some((Confirming(task.account, task.expected, session.value.key), tab))
      else Some((Choosing(Some(task.account), task.goal, task.expected), tab))
  }

  /** A fresh key, and for a sign-in the wallet's answer. */
  function AfterMint(task: Task, tab: Tab, key: nat, signer: AccountId, proofOk: bool): Option<Task> {
    if !task.Minting? then None
    else if task.goal.SignIn? then
      if !proofOk || task.expected != tab.generation || (task.who.Some? && task.who.value != signer) then Some(Ended(None))
      else Some(Saving(signer, SignIn, task.expected, task.seen, Session(V2, key, None), false))
    else if task.who.None? then None
    else Some(Saving(task.who.value, Payment, task.expected, task.seen, Session(V3, key, None), true))
  }

  /** The pending writing transaction of a task runs. */
  function AfterCommit(w: World, task: Task, tab: Tab): Option<(Task, Store)> {
    match task
    case Saving(account, goal, expected, seen, session, reuse) =>
      var saved := Saved(w.store, account, session, seen.revision, expected == tab.generation, reuse);
      if saved.None? then Some((Ended(None), w.store))
      else Some((if goal.Payment? then Confirming(account, expected, saved.value.1.key) else Ended(None), saved.value.0))
    case Updating(scope) => Some((UpdateDone(Rev(w.store) + 1), Updated(w.store, scope)))
    case Dropping(account, goal, expected) => Some((Dropped(account, goal, expected, Rev(w.store) + 1), Updated(w.store, One(account))))
    case _ => None
  }

  function Announced(t: Tab, revision: nat): Tab {
    t.(observed := Some(if t.observed.GetOr(0) < revision then revision else t.observed.GetOr(0)))
  }

  /** The completion of an update: the tab and the others learn the new revision. */
  function AfterCommitDone(task: Task, tab: Tab): Option<(Task, Tab, nat)> {
    match task
    case UpdateDone(revision) => Some((Ended(None), Announced(tab, revision), revision))
    case Dropped(account, goal, expected, revision) =>
      var t := Announced(tab, revision);
      Some((Rejected(account, goal, expected, t), t, revision))
    case _ => None
  }

  /** One step, or `None` when it is not the task's turn. */
  function Moved(w: World, step: Step): Option<World> {
    if step.act.OpenTab? then
      if step.tab in w.tabs then None else Some(WithTab(w, step, Tab(0, None, 0)))
    else if step.tab !in w.tabs then None
    else if step.act.Deliver? then
      if step.act.revision !in w.posted then None else Some(WithTab(w, step, Notified(w.tabs[step.tab], step.act.revision)))
    else if step.task !in w.tasks then Start(w, step, w.tabs[step.tab])
    else if w.tasks[step.task].tab != step.tab then None
    else
      var task, tab := w.tasks[step.task].task, w.tabs[step.tab];
      match step.act
      case Read =>
        var n := AfterRead(w, task);
        if n.None? then None else Some(WithTask(w, step, n.value))
      case ReadDone =>
        var n := AfterReadDone(task, tab);
        if n.None? then None else Some(WithTask(WithTab(w, step, n.value.1), step, n.value.0))
      case Judge(valid) =>
        var n := AfterJudge(task, tab, valid);
        if n.None? then None else Some(WithTask(WithTab(w, step, n.value.1), step, n.value.0))
      case Mint(key, signer, proofOk) =>
        var n := AfterMint(task, tab, key, signer, proofOk);
        if n.None? || key in w.minted then None
        else Some(WithTask(w, step, n.value).(minted := w.minted[key := if task.goal.SignIn? then V2 else V3]))
      case Commit =>
        var n := AfterCommit(w, task, tab);
        if n.None? then None else Some(WithTask(w, step, n.value.0).(store := n.value.1))
      case CommitDone =>
        var n := AfterCommitDone(task, tab);
        if n.None? then None else Some(WithTask(WithTab(w, step, n.value.1), step, n.value.0).(posted := w.posted + {n.value.2}))
      case SavePosition(position) =>
        if !task.Watching? then None
        else Some(w.(store := SavedPosition(w.store, task.place, task.device, task.seen.revision, task.alarms != tab.alarms, position)))
      case _ => None
  }

  function Next(w: World, step: Step): World {
    Moved(w, step).GetOr(w).(clock := w.clock + 1)
  }

  const NEW_WORLD: World := World(Store(None, map[], map[]), map[], map[], map[], {}, 0)

  /** A run of the browser from an empty store. */
  datatype Run = Run(worlds: seq<World>, steps: seq<Step>)

  ghost predicate Valid(r: Run) {
    && |r.worlds| == |r.steps| + 1
    && r.worlds[0] == NEW_WORLD
    && forall i {:trigger r.worlds[i + 1]} {:trigger r.steps[i]} | 0 <= i < |r.steps| :: r.worlds[i + 1] == Next(r.worlds[i], r.steps[i])
  }
}
