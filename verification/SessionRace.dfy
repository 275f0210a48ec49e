/** A run in which two racing preparations return different keys: a delegation from before is still under way. */
module SessionRace {
  import opened Common
  import opened DeviceSession
  import opened SessionSafety
  import opened SessionKeys

  function Play(w: World, ss: seq<Step>): World {
    if ss == [] then w else Next(Play(w, ss[..|ss| - 1]), ss[|ss| - 1])
  }

  function Worlds(w: World, ss: seq<Step>): (ws: seq<World>)
    ensures |ws| == |ss| + 1
  {
    seq(|ss| + 1, i requires 0 <= i <= |ss| => Play(w, ss[..i]))
  }

  lemma PlayedRunIsValid(ss: seq<Step>)
    ensures Valid(Run(Worlds(NEW_WORLD, ss), ss))
  {
    var ws := Worlds(NEW_WORLD, ss);
    assert ss[..0] == [];
    forall i | 0 <= i < |ss|
      ensures ws[i + 1] == Next(ws[i], ss[i])
    {
      assert ss[..i + 1][..i] == ss[..i];
    }
  }

  lemma {:induction false} PlayOn(w: World, ss: seq<Step>, ts: seq<Step>)
    ensures Play(w, ss + ts) == Play(Play(w, ss), ts)
  {
    if ts == [] {
      assert ss + ts == ss;
    } else {
      PlayOn(w, ss, ts[..|ts| - 1]);
      assert (ss + ts)[..|ss + ts| - 1] == ss + ts[..|ts| - 1];
    }
  }

  /** The steps of a task are taken in its tab: task 5 runs in a tab of its own. */
  function TabOf(task: nat): nat {
    if task == 5 then 1 else 0
  }

  function By(task: nat, act: Act): Step {
    Step(TabOf(task), task, act)
  }

  const FRESH: Tab := Tab(0, None, 0)
  const AWARE: Tab := Tab(0, Some(0), 0)

  /** The task's tab is open, at revision zero, and has seen nothing cleared. */
  predicate Calm(w: World, id: nat) {
    TabOf(id) in w.tabs && (w.tabs[TabOf(id)] == FRESH || w.tabs[TabOf(id)] == AWARE) && w.store.revision == None
  }

  /** The task is at this point of its function. */
  predicate At(w: World, id: nat, task: Task) {
    Calm(w, id) && id in w.tasks && w.tasks[id] == Running(TabOf(id), task)
  }

  /** `w` after `steps` steps in which one task moved to another point, in a tab that has seen the revision. */
  function Going(w: World, id: nat, task: Task, steps: nat): World {
    w.(tabs := w.tabs[TabOf(id) := AWARE], tasks := w.tasks[id := Running(TabOf(id), task)], clock := w.clock + steps)
  }

  /** `w` after a new key was generated and its session stored. */
  function Stored(w: World, id: nat, task: Task, s: Session, steps: nat): World {
    Going(w, id, task, steps).(store := w.store.(sessions := w.store.sessions["a" := s]), minted := w.minted[s.key := s.version])
  }

  lemma StartingPayment(w: World, id: nat)
    requires Calm(w, id) && id !in w.tasks
    ensures var n := Next(w, By(id, StartPayment("a")));
            n == w.(tasks := w.tasks[id := Running(TabOf(id), Checking("a", Payment, 0, 0))], clock := w.clock + 1)
  {
  }

  lemma CheckingNothing(w: World, id: nat)
    requires At(w, id, Checking("a", Payment, 0, 0)) && "a" !in w.store.sessions
    ensures Next(Next(w, By(id, Read)), By(id, ReadDone)) == Going(w, id, Choosing(Some("a"), Payment, 0), 2)
  {
    var snap := Snapshot(Seen(0, w.clock), None);
    assert Next(w, By(id, Read)) == w.(tasks := w.tasks[id := Running(TabOf(id), CheckRead("a", Payment, 0, 0, snap))], clock := w.clock + 1);
  }

  lemma CheckingOld(w: World, id: nat)
    requires At(w, id, Checking("a", Payment, 0, 0)) && "a" in w.store.sessions && w.store.sessions["a"].version == V2
    ensures var n := Next(Next(Next(w, By(id, Read)), By(id, ReadDone)), By(id, Judge(true)));
            n == Going(w, id, Choosing(Some("a"), Payment, 0), 3)
  {
    var snap := Snapshot(Seen(0, w.clock), Some(w.store.sessions["a"]));
    assert Next(w, By(id, Read)) == w.(tasks := w.tasks[id := Running(TabOf(id), CheckRead("a", Payment, 0, 0, snap))], clock := w.clock + 1);
    assert Next(Next(w, By(id, Read)), By(id, ReadDone)) == Going(w, id, Judging("a", Payment, 0, 0, snap), 2);
  }

  lemma Looking(w: World, id: nat, who: Option<AccountId>, goal: Goal)
    requires At(w, id, Choosing(who, goal, 0))
    ensures Next(Next(w, By(id, Read)), By(id, ReadDone)) == Going(w, id, Minting(who, goal, 0, Seen(0, w.clock)), 2)
  {
    var n := Next(w, By(id, Read));
    var session := if who.Some? then DeviceSession.SessionOf(w.store, who.value) else None;
    assert n == w.(tasks := w.tasks[id := Running(TabOf(id), ChooseRead(who, goal, 0, Snapshot(Seen(0, w.clock), session)))], clock := w.clock + 1);
  }

  lemma StoringV3(w: World, id: nat, seen: Seen, key: nat)
    requires At(w, id, Minting(Some("a"), Payment, 0, seen)) && seen.revision == 0 && key !in w.minted && w.tabs[TabOf(id)] == AWARE
    requires "a" in w.store.sessions ==> w.store.sessions["a"].version == V2
    ensures Next(Next(w, By(id, Mint(key, "a", true))), By(id, Commit)) == Stored(w, id, Confirming("a", 0, key), Session(V3, key, None), 2)
  {
    var task := Saving("a", Payment, 0, seen, Session(V3, key, None), true);
    assert Next(w, By(id, Mint(key, "a", true)))
        == w.(tasks := w.tasks[id := Running(TabOf(id), task)], minted := w.minted[key := V3], clock := w.clock + 1);
  }

  lemma StoringV2(w: World, id: nat, seen: Seen, key: nat)
    requires At(w, id, Minting(None, SignIn, 0, seen)) && seen.revision == 0 && key !in w.minted && w.tabs[TabOf(id)] == AWARE
    ensures Next(Next(w, By(id, Mint(key, "a", true))), By(id, Commit)) == Stored(w, id, Ended(None), Session(V2, key, None), 2)
  {
    var task := Saving("a", SignIn, 0, seen, Session(V2, key, None), false);
    assert Next(w, By(id, Mint(key, "a", true)))
        == w.(tasks := w.tasks[id := Running(TabOf(id), task)], minted := w.minted[key := V2], clock := w.clock + 1);
  }

  function Pay(id: nat, key: nat, over: bool): seq<Step> {
    [By(id, StartPayment("a")), By(id, Read), By(id, ReadDone)] + (if over then [By(id, Judge(true))] else [])
    + [By(id, Read), By(id, ReadDone), By(id, Mint(key, "a", true)), By(id, Commit)]
  }

  lemma SevenSteps(w: World, a: Step, b: Step, c: Step, d: Step, e: Step, f: Step, g: Step)
    ensures Play(w, [a, b, c, d, e, f, g]) == Next(Next(Next(Next(Next(Next(Next(w, a), b), c), d), e), f), g)
    ensures Play(w, [a, b, c]) == Next(Next(Next(w, a), b), c)
    ensures Play(w, [a, b, c, d, e]) == Next(Next(Next(Next(Next(w, a), b), c), d), e)
    ensures Play(w, [a, b]) == Next(Next(w, a), b)
    ensures Play(w, [a]) == Next(w, a)
  {
    hide Next;
    assert [a][..0] == [] && [a, b][..1] == [a] && [a, b, c][..2] == [a, b] && [a, b, c, d][..3] == [a, b, c];
    assert [a, b, c, d, e][..4] == [a, b, c, d] && [a, b, c, d, e, f][..5] == [a, b, c, d, e];
    assert [a, b, c, d, e, f, g][..6] == [a, b, c, d, e, f];
    assert Play(w, [a]) == Next(w, a);
    assert Play(w, [a, b]) == Next(Next(w, a), b);
    assert Play(w, [a, b, c]) == Next(Next(Next(w, a), b), c);
    assert Play(w, [a, b, c, d]) == Next(Next(Next(Next(w, a), b), c), d);
    assert Play(w, [a, b, c, d, e]) == Next(Next(Next(Next(Next(w, a), b), c), d), e);
  }

  /** The result of playing some steps: one more task, perhaps a new session and key. */
  predicate Became(w: World, n: World, id: nat, task: Task, sessions: map<AccountId, Session>, minted: map<nat, Version>) {
    && n.tabs == w.tabs[TabOf(id) := AWARE] && n.store.revision == None
    && n.tasks == w.tasks[id := Running(TabOf(id), task)] && n.store.sessions == sessions && n.minted == minted
  }

  lemma FirstPayment(w: World, id: nat, key: nat)
    requires Calm(w, id) && id !in w.tasks && key !in w.minted && "a" !in w.store.sessions
    ensures Became(w, Play(w, Pay(id, key, false)), id, Confirming("a", 0, key), w.store.sessions["a" := Session(V3, key, None)], w.minted[key := V3])
  {
    hide Next, Play;
    var a := Next(w, By(id, StartPayment("a")));
    StartingPayment(w, id);
    CheckingNothing(a, id);
    var b := Next(Next(a, By(id, Read)), By(id, ReadDone));
    Looking(b, id, Some("a"), Payment);
    var c := Next(Next(b, By(id, Read)), By(id, ReadDone));
    StoringV3(c, id, Seen(0, b.clock), key);
    SevenSteps(w, By(id, StartPayment("a")), By(id, Read), By(id, ReadDone), By(id, Read), By(id, ReadDone), By(id, Mint(key, "a", true)), By(id, Commit));
    assert Pay(id, key, false) == [By(id, StartPayment("a")), By(id, Read), By(id, ReadDone), By(id, Read), By(id, ReadDone), By(id, Mint(key, "a", true)), By(id, Commit)];
  }

  lemma PaySteps(w: World, id: nat, key: nat)
    ensures var checked := Next(Next(Next(Next(w, By(id, StartPayment("a"))), By(id, Read)), By(id, ReadDone)), By(id, Judge(true)));
            Play(w, Pay(id, key, true)) == Next(Next(Next(Next(checked, By(id, Read)), By(id, ReadDone)), By(id, Mint(key, "a", true))), By(id, Commit))
  {
    hide Next, Play;
    var first := [By(id, StartPayment("a")), By(id, Read), By(id, ReadDone)];
    var rest := [By(id, Judge(true)), By(id, Read), By(id, ReadDone), By(id, Mint(key, "a", true)), By(id, Commit)];
    SevenSteps(w, first[0], first[1], first[2], first[0], first[0], first[0], first[0]);
    SevenSteps(Play(w, first), rest[0], rest[1], rest[2], rest[3], rest[4], rest[0], rest[0]);
    PlayOn(w, first, rest);
    assert Pay(id, key, true) == first + rest;
  }

  lemma SecondPayment(w: World, id: nat, key: nat)
    requires Calm(w, id) && id !in w.tasks && key !in w.minted && "a" in w.store.sessions && w.store.sessions["a"].version == V2
    ensures Became(w, Play(w, Pay(id, key, true)), id, Confirming("a", 0, key), w.store.sessions["a" := Session(V3, key, None)], w.minted[key := V3])
  {
    hide Next, Play;
    var a := Next(w, By(id, StartPayment("a")));
    StartingPayment(w, id);
    CheckingOld(a, id);
    var b := Next(Next(Next(a, By(id, Read)), By(id, ReadDone)), By(id, Judge(true)));
    Looking(b, id, Some("a"), Payment);
    var c := Next(Next(b, By(id, Read)), By(id, ReadDone));
    StoringV3(c, id, Seen(0, b.clock), key);
    PaySteps(w, id, key);
  }

  lemma Recalls(w: World, id: nat, key: nat)
    requires At(w, id, Recalling("a", key, "d", 0)) && "a" in w.store.sessions && w.store.sessions["a"] == Session(V3, key, None)
    ensures Next(Next(w, By(id, Read)), By(id, ReadDone))
            == Going(w, id, Saving("a", Delegation, 0, Seen(0, w.clock), Session(V3, key, Some("d")), false), 2)
  {
    var snap := Snapshot(Seen(0, w.clock), Some(Session(V3, key, None)));
    assert Next(w, By(id, Read)) == w.(tasks := w.tasks[id := Running(TabOf(id), RecallRead("a", key, "d", 0, snap))], clock := w.clock + 1);
  }

  lemma StartingOthers(w: World, id: nat, key: nat)
    requires Calm(w, id) && id !in w.tasks
    ensures Next(w, By(id, StartRemember("a", key, "d"))) == w.(tasks := w.tasks[id := Running(TabOf(id), Recalling("a", key, "d", 0))], clock := w.clock + 1)
    ensures Next(w, By(id, StartSignIn(None))) == w.(tasks := w.tasks[id := Running(TabOf(id), Choosing(None, SignIn, 0))], clock := w.clock + 1)
  {
  }

  lemma Remembering(w: World, id: nat, key: nat)
    requires Calm(w, id) && id !in w.tasks && "a" in w.store.sessions && w.store.sessions["a"] == Session(V3, key, None)
    ensures Became(w, Play(w, [By(id, StartRemember("a", key, "d")), By(id, Read), By(id, ReadDone)]), id,
                   Saving("a", Delegation, 0, Seen(0, w.clock + 1), Session(V3, key, Some("d")), false), w.store.sessions, w.minted)
  {
    hide Next, Play;
    var a := Next(w, By(id, StartRemember("a", key, "d")));
    StartingOthers(w, id, key);
    Recalls(a, id, key);
    SevenSteps(w, By(id, StartRemember("a", key, "d")), By(id, Read), By(id, ReadDone), By(id, Read), By(id, Read), By(id, Read), By(id, Read));
  }

  lemma SigningIn(w: World, id: nat, key: nat)
    requires Calm(w, id) && id !in w.tasks && key !in w.minted
    ensures Became(w, Play(w, [By(id, StartSignIn(None)), By(id, Read), By(id, ReadDone), By(id, Mint(key, "a", true)), By(id, Commit)]), id,
                   Ended(None), w.store.sessions["a" := Session(V2, key, None)], w.minted[key := V2])
  {
    hide Next, Play;
    var a := Next(w, By(id, StartSignIn(None)));
    StartingOthers(w, id, key);
    Looking(a, id, None, SignIn);
    var b := Next(Next(a, By(id, Read)), By(id, ReadDone));
    StoringV2(b, id, Seen(0, a.clock), key);
    SevenSteps(w, By(id, StartSignIn(None)), By(id, Read), By(id, ReadDone), By(id, Mint(key, "a", true)), By(id, Commit), By(id, Read), By(id, Read));
  }

  /** The last read of a preparation, when the stored key is its own. */
  lemma Confirms(w: World, id: nat, key: nat, at: nat)
    requires At(w, id, Confirming("a", 0, key)) && w.tabs[TabOf(id)] == AWARE && w.clock == at && HasKey(w.store, "a", key)
    ensures Returns(Next(w, By(id, Read)), By(id, ReadDone), "a", key, at)
    ensures var n := Next(Next(w, By(id, Read)), By(id, ReadDone)); Became(w, n, id, Ended(Some(key)), w.store.sessions, w.minted)
  {
    var snap := Snapshot(Seen(0, w.clock), Some(w.store.sessions["a"]));
    assert Next(w, By(id, Read)) == w.(tasks := w.tasks[id := Running(TabOf(id), ConfirmRead("a", 0, key, snap))], clock := w.clock + 1);
  }

  lemma Delegates(w: World, id: nat, seen: Seen, session: Session)
    requires At(w, id, Saving("a", Delegation, 0, seen, session, false)) && w.tabs[TabOf(id)] == AWARE && seen.revision == 0
    ensures Became(w, Next(w, By(id, Commit)), id, Ended(None), w.store.sessions["a" := session], w.minted)
  {
  }

  lemma Opening(w: World, id: nat)
    requires TabOf(id) !in w.tabs
    ensures Next(w, By(id, OpenTab)) == w.(tabs := w.tabs[TabOf(id) := FRESH], clock := w.clock + 1)
  {
  }

  lemma CheckingNew(w: World, id: nat, key: nat)
    requires At(w, id, Checking("a", Payment, 0, 0)) && HasKey(w.store, "a", key)
    ensures var n := Next(Next(Next(w, By(id, Read)), By(id, ReadDone)), By(id, Judge(true)));
            n == Going(w, id, Confirming("a", 0, key), 3)
  {
    var snap := Snapshot(Seen(0, w.clock), Some(w.store.sessions["a"]));
    assert Next(w, By(id, Read)) == w.(tasks := w.tasks[id := Running(TabOf(id), CheckRead("a", Payment, 0, 0, snap))], clock := w.clock + 1);
    assert Next(Next(w, By(id, Read)), By(id, ReadDone)) == Going(w, id, Judging("a", Payment, 0, 0, snap), 2);
  }

  function Before(): seq<Step> {
    [By(0, OpenTab)] + Pay(1, 1, false) + [By(1, Read), By(1, ReadDone)]
    + [By(2, StartRemember("a", 1, "d")), By(2, Read), By(2, ReadDone)]
    + [By(3, StartSignIn(None)), By(3, Read), By(3, ReadDone), By(3, Mint(2, "a", true)), By(3, Commit)]
  }

  /** The task holds a delegation for key 1, read at the revision that is still current. */
  ghost predicate Delegating(w: World) {
    exists seen: Seen :: seen.revision == 0 && At(w, 2, Saving("a", Delegation, 0, seen, Session(V3, 1, Some("d")), false))
  }

  lemma Opened()
    ensures var w := Play(NEW_WORLD, [By(0, OpenTab)]);
            w.tabs == map[0 := FRESH] && w.tasks == map[] && w.minted == map[] && w.store == Store(None, map[], map[])
  {
    assert [By(0, OpenTab)][..0] == [];
  }

  /** A payment has returned key 1, its delegation is under way, and a sign-in has replaced the session. */
  lemma AfterBefore()
    ensures var w := Play(NEW_WORLD, Before());
            && w.tabs == map[0 := AWARE] && w.store.revision == None && w.tasks.Keys == {1, 2, 3} && w.minted.Keys == {1, 2}
            && "a" in w.store.sessions && w.store.sessions["a"].version == V2 && Delegating(w)
  {
    hide Next;
    var opening, pay, confirm := [By(0, OpenTab)], Pay(1, 1, false), [By(1, Read), By(1, ReadDone)];
    var remember := [By(2, StartRemember("a", 1, "d")), By(2, Read), By(2, ReadDone)];
    var signIn := [By(3, StartSignIn(None)), By(3, Read), By(3, ReadDone), By(3, Mint(2, "a", true)), By(3, Commit)];
    var a := Play(NEW_WORLD, opening);
    Opened();
    hide Play;
    FirstPayment(a, 1, 1);
    var b := Play(a, pay);
    Confirms(b, 1, 1, b.clock);
    SevenSteps(b, By(1, Read), By(1, ReadDone), By(1, Read), By(1, Read), By(1, Read), By(1, Read), By(1, Read));
    var c := Play(b, confirm);
    Remembering(c, 2, 1);
    var d := Play(c, remember);
    SigningIn(d, 3, 2);
    PlayOn(NEW_WORLD, opening, pay);
    PlayOn(NEW_WORLD, opening + pay, confirm);
    PlayOn(NEW_WORLD, opening + pay + confirm, remember);
    PlayOn(NEW_WORLD, opening + pay + confirm + remember, signIn);
  }

  lemma PendingDelegation(w: World) returns (seen: Seen)
    requires Delegating(w)
    ensures seen.revision == 0 && At(w, 2, Saving("a", Delegation, 0, seen, Session(V3, 1, Some("d")), false))
  {
    seen :| seen.revision == 0 && At(w, 2, Saving("a", Delegation, 0, seen, Session(V3, 1, Some("d")), false));
  }

  function Race(): seq<Step> {
    [By(5, OpenTab), By(5, StartPayment("a")), By(4, Read), By(4, ReadDone), By(2, Commit),
     By(5, Read), By(5, ReadDone), By(5, Judge(true)), By(5, Read), By(5, ReadDone)]
  }

  lemma StoredKey(w: World, key: nat)
    requires "a" in w.store.sessions && w.store.sessions["a"].version == V3 && w.store.sessions["a"].key == key
    ensures HasKey(w.store, "a", key)
  {
  }

  lemma RaceStep(r: Run, k: nat)
    requires Valid(r) && |r.steps| == 36 && r.steps[26..] == Race() && 26 <= k < 36
    ensures r.steps[k] == Race()[k - 26] && r.worlds[k + 1] == Next(r.worlds[k], Race()[k - 26])
  {
    hide Next;
    assert r.steps[k] == r.steps[26..][k - 26];
  }

  /** While the second call starts in its own tab, the first one returns key 3. */
  lemma FirstReturns(r: Run, seen: Seen)
    requires Valid(r) && |r.steps| == 36 && r.steps[26..] == Race() && seen.revision == 0
    requires var w := r.worlds[26];
             && w.tabs == map[0 := AWARE] && w.store.revision == None && w.tasks.Keys == {1, 2, 3, 4} && HasKey(w.store, "a", 3)
             && At(w, 2, Saving("a", Delegation, 0, seen, Session(V3, 1, Some("d")), false)) && At(w, 4, Confirming("a", 0, 3))
    ensures Returns(r.worlds[29], r.steps[29], "a", 3, 28) && 5 in r.worlds[29].tasks
    ensures var w := r.worlds[30];
            && w.tabs == map[0 := AWARE, 1 := FRESH] && w.store.revision == None
            && At(w, 2, Saving("a", Delegation, 0, seen, Session(V3, 1, Some("d")), false)) && At(w, 5, Checking("a", Payment, 0, 0))
  {
    hide Returns, Moved, HasKey, Next;
    RaceStep(r, 26);
    Opening(r.worlds[26], 5);
    RaceStep(r, 27);
    StartingPayment(r.worlds[27], 5);
    RaceStep(r, 28);
    RaceStep(r, 29);
    ClockCounts(r, 28);
    Confirms(r.worlds[28], 4, 3, 28);
    OthersStay(r.worlds[28], r.steps[28], 5);
  }

  /** The delegation puts key 1 back, and the second call returns it. */
  lemma SecondReturns(r: Run, seen: Seen)
    requires Valid(r) && |r.steps| == 36 && r.steps[26..] == Race() && seen.revision == 0
    requires var w := r.worlds[30];
             && w.tabs == map[0 := AWARE, 1 := FRESH] && w.store.revision == None
             && At(w, 2, Saving("a", Delegation, 0, seen, Session(V3, 1, Some("d")), false)) && At(w, 5, Checking("a", Payment, 0, 0))
    ensures Returns(r.worlds[35], r.steps[35], "a", 1, 34)
    ensures Rev(r.worlds[36].store) == 0 && !Saves(r.worlds[30], r.steps[30], "a", SignIn)
  {
    hide Returns, Moved, HasKey, Next;
    RaceStep(r, 30);
    Delegates(r.worlds[30], 2, seen, Session(V3, 1, Some("d")));
    StoredKey(r.worlds[31], 1);
    RaceStep(r, 31);
    RaceStep(r, 32);
    RaceStep(r, 33);
    CheckingNew(r.worlds[31], 5, 1);
    RaceStep(r, 34);
    RaceStep(r, 35);
    ClockCounts(r, 34);
    Confirms(r.worlds[34], 5, 1, 34);
  }

  lemma SignInEnds(w: World, step: Step)
    ensures Saves(w, step, "a", SignIn) ==> step.task in Next(w, step).tasks && Next(w, step).tasks[step.task].task == Ended(None)
  {
  }

  lemma QuietRace(r: Run)
    requires Valid(r) && |r.steps| == 36 && r.steps[18..26] == Pay(4, 3, true) && r.steps[26..] == Race()
    requires Rev(r.worlds[36].store) == 0 && At(r.worlds[26], 4, Confirming("a", 0, 3)) && !Saves(r.worlds[30], r.steps[30], "a", SignIn)
    ensures Quiet(r, 18, 36, "a")
  {
    hide Next;
    forall c | 18 <= c < 36
      ensures !Bumps(r.worlds[c], r.steps[c]) && !Saves(r.worlds[c], r.steps[c], "a", SignIn)
    {
      if Bumps(r.worlds[c], r.steps[c]) {
        RevisionJumps(r, c, c, 36);
      }
      assert r.steps[c] == if c < 26 then r.steps[18..26][c - 18] else r.steps[26..][c - 26];
      if c == 25 {
        assert r.worlds[c + 1] == Next(r.worlds[c], r.steps[c]);
        SignInEnds(r.worlds[c], r.steps[c]);
      }
    }
  }

  lemma PaidWorld(w: World, n: World)
    requires w.tabs == map[0 := AWARE] && w.tasks.Keys == {1, 2, 3} && Delegating(w) && w.store.revision == None
    requires Became(w, n, 4, Confirming("a", 0, 3), w.store.sessions["a" := Session(V3, 3, None)], w.minted[3 := V3])
    ensures n.tabs == map[0 := AWARE] && n.store.revision == None && n.tasks.Keys == {1, 2, 3, 4}
    ensures HasKey(n.store, "a", 3) && Delegating(n) && At(n, 4, Confirming("a", 0, 3))
  {
    var seen: Seen :| seen.revision == 0 && At(w, 2, Saving("a", Delegation, 0, seen, Session(V3, 1, Some("d")), false));
    assert At(n, 2, Saving("a", Delegation, 0, seen, Session(V3, 1, Some("d")), false));
  }

  function Whole(): Run {
    var ss := Before() + Pay(4, 3, true) + Race();
    Run(Worlds(NEW_WORLD, ss), ss)
  }

  lemma WholeParts()
    ensures var r := Whole(); && Valid(r) && |r.worlds| == 37 && |r.steps| == 36 && r.steps[18..26] == Pay(4, 3, true) && r.steps[26..] == Race()
    ensures Whole().worlds[18] == Play(NEW_WORLD, Before()) && Whole().worlds[26] == Play(Whole().worlds[18], Pay(4, 3, true))
  {
    hide Play;
    var first, pay := Before(), Pay(4, 3, true);
    var ss := first + pay + Race();
    PlayedRunIsValid(ss);
    assert |first| == 18 && |pay| == 8;
    assert ss[..18] == first && ss[..26] == first + pay;
    PlayOn(NEW_WORLD, first, pay);
  }

  /**
   A payment returns key 1 and its delegation starts; a sign-in replaces the session. From then on
   nothing is cleared and nobody signs in. A payment in one tab stores and returns key 3 while a
   payment in another tab is running; the delegation puts key 1 back, and the second payment returns it.
   */
  lemma RacingCallsMayDisagree()
    ensures exists r: Run, s: nat, m: nat, n: nat, i: nat, j: nat ::
              && Valid(r) && s <= i < m <= j < n < |r.steps| && Quiet(r, s, |r.steps|, "a")
              && r.steps[m].task !in r.worlds[s].tasks && r.steps[n].task !in r.worlds[s].tasks && r.steps[n].task in r.worlds[m].tasks
              && r.steps[m].tab != r.steps[n].tab
              && Returns(r.worlds[m], r.steps[m], "a", 3, i) && Returns(r.worlds[n], r.steps[n], "a", 1, j)
  {
    var r := Whole();
    WholeParts();
    AfterBefore();
    hide Next, Play, Returns, Became, Delegating, Quiet, Whole, Valid;
    SecondPayment(r.worlds[18], 4, 3);
    PaidWorld(r.worlds[18], r.worlds[26]);
    var seen := PendingDelegation(r.worlds[26]);
    FirstReturns(r, seen);
    SecondReturns(r, seen);
    QuietRace(r);
    RaceStep(r, 29);
    RaceStep(r, 35);
    assert Valid(r) && Quiet(r, 18, |r.steps|, "a") && Returns(r.worlds[29], r.steps[29], "a", 3, 28) && Returns(r.worlds[35], r.steps[35], "a", 1, 34);
  }
}
