/** The two pieces of mutable state behind device sessions, updated as the transactions and handlers update them. */
module SessionStorage {
  import opened Common
  import opened DeviceSession

  /** The object store `sessions`; each method is one transaction. */
  class ObjectStore {
    var revision: Option<nat>
    var sessions: map<AccountId, Session>
    var positions: map<Place, Position>

    ghost function Abs(): Store
      reads this
    {
      Store(revision, sessions, positions)
    }

    constructor ()
      ensures Abs() == NEW_WORLD.store
    {
      revision, sessions, positions := None, map[], map[];
    }

    /** The transaction of `readStored`. */
    method ReadStored(account: AccountId) returns (current: nat, session: Option<Session>)
      ensures current == Rev(Abs()) && session == DeviceSession.SessionOf(Abs(), account)
    {
      current := if revision.Some? then revision.value else 0;
      session := if account in sessions then Some(sessions[account]) else None;
    }

    /** The transaction of `saveSession`; `None` is an abort, which leaves everything as it was. */
    method SaveSession(account: AccountId, session: Session, expected: nat, expectedGeneration: nat, generation: nat, reuse: bool)
      returns (saved: Option<Session>)
      modifies `sessions
      ensures var outcome := Saved(old(Abs()), account, session, expected, expectedGeneration == generation, reuse);
              if saved.None? then outcome.None? && Abs() == old(Abs()) else outcome == Some((Abs(), saved.value))
    {
      var current := if revision.Some? then revision.value else 0;
      if current != expected || expectedGeneration != generation { return None; }
      if reuse && account in sessions && sessions[account].version.V3? { return Some(sessions[account]); }
      sessions := sessions[account := session];
      return Some(session);
    }

    /** The transaction of `updateDeviceSession`: emptying the store takes the revision with it, so it is written again. */
    method Update(scope: Scope) returns (next: nat)
      modifies this
      ensures Abs() == Updated(old(Abs()), scope) && next == Rev(Abs()) == Rev(old(Abs())) + 1
    {
      next := (if revision.Some? then revision.value else 0) + 1;
      match scope {
        case Nothing =>
        case One(account) => sessions := sessions - {account};
        case Everything => revision, sessions, positions := None, map[], map[];
      }
      revision := Some(next);
    }

    /** The transaction of a progress `save`. */
    method SavePosition(place: Place, device: nat, expected: nat, stopped: bool, p: Position)
      modifies `positions
      ensures Abs() == SavedPosition(old(Abs()), place, device, expected, stopped, p)
    {
      var current := if revision.Some? then revision.value else 0;
      if stopped || current != expected { return; }
      if place.account !in sessions || sessions[place.account].key != device { return; }
      if p.updatedAt > 0 && p.position >= 10.0 && p.duration - p.position > 15.0 {
        positions := positions[place := p];
      } else {
        positions := positions - {place};
      }
    }
  }

  /** The module variables of one tab. */
  class TabVariables {
    var generation: nat
    var observed: Option<nat>
    var alarms: nat

    ghost function Abs(): Tab
      reads this
    {
      Tab(generation, observed, alarms)
    }

    constructor ()
      ensures Abs() == Tab(0, None, 0)
    {
      generation, observed, alarms := 0, None, 0;
    }

    /** `invalidate` */
    method Invalidate()
      modifies this
      ensures Abs() == Invalidated(old(Abs()))
    {
      generation := generation + 1;
      alarms := alarms + 1;
    }

    /** The completion handler of `readStored`: listeners are called, but work started after the logout goes on. */
    method Observe(revision: nat)
      modifies this
      ensures Abs() == Observing(old(Abs()), revision)
    {
      if observed.None? {
        observed := Some(revision);
      } else if revision > observed.value {
        observed := Some(revision);
        alarms := alarms + 1;
      }
    }

    /** A message from another tab. */
    method Notify(revision: nat)
      modifies this
      ensures Abs() == Notified(old(Abs()), revision)
    {
      if revision > (if observed.Some? then observed.value else 0) {
        observed := Some(revision);
        Invalidate();
      }
    }

    /** The end of `updateDeviceSession`. */
    method Announce(revision: nat)
      modifies this
      ensures Abs() == Announced(old(Abs()), revision)
    {
      var seen := if observed.Some? then observed.value else 0;
      observed := Some(if seen < revision then revision else seen);
    }

    /** `prepareDeviceSession` and `preparePlaybackDevice` after the wait for a stored session's cryptography. */
    method JudgeSession(task: Task, valid: bool) returns (next: Task)
      requires task.Judging?
      modifies this
      ensures AfterJudge(task, old(Abs()), valid) == Some((next, Abs()))
    {
      var session := task.snap.session;
      var usable := false;
      var expected := task.expected;
      if !valid {
        if task.inner == generation {
          Invalidate();
          return Dropping(task.account, task.goal, generation);
        }
      } else {
        usable := task.inner == generation && observed == Some(task.snap.seen.revision) && session.Some?;
      }
      if expected != generation { return Ended(None); }
      if usable && task.goal.SignIn? { return Ended(None); }
      if usable && session.value.version.V3? { return Confirming(task.account, expected, session.value.key); }
      return Choosing(Some(task.account), task.goal, expected);
    }
  }
}
