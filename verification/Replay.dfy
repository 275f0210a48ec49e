/**
 No device comes back by replay: an accepted `add_device` message is useless in every later state
 once its key has left the ticket's active devices, however it left.
 */
module Replay {
  import opened Common
  import opened Governance
  import opened Catalog
  import opened PublicationIndex
  import opened Ledger
  import opened Devices
  import opened Books
  import opened TicketRules
  import opened LedgerSteps
  import opened Runs
  import opened History

  /** The fields an `add_device` signature covers, apart from network and contract. */
  datatype Message = Message(id: Id, key: string, certificate: string, epoch: nat, expires: nat)

  /** The call that submits a message; anybody may submit it. */
  function Submit(m: Message, wellFormed: bool, sigOk: bool, runwayOk: bool): LedgerOp {
    DeviceAddition(m.id, m.key, m.certificate, m.epoch, m.expires, wellFormed, sigOk, runwayOk)
  }

  ghost predicate RefundPending(xs: seq<Transfer>, id: Id) {
    exists i :: 0 <= i < |xs| && RefundOf(xs[i], id) && xs[i].fate.Pending?
  }

  /** The ticket is voided, or refunded with no refund still under way: nothing changes that again. */
  ghost predicate Finished(l: Ledger, id: Id) {
    id in l.tickets
    && (l.tickets[id].status.Voided? || (l.tickets[id].status.Refunded? && !RefundPending(l.transfers, id)))
  }

  /** The message can never be accepted again: stale epoch, expired signature or finished ticket. */
  ghost predicate Spent(l: Ledger, m: Message, now: nat) {
    m.id in l.tickets && (l.tickets[m.id].deviceEpoch > m.epoch || now >= m.expires || Finished(l, m.id))
  }

  predicate LivesBeyond(ds: seq<Device>, key: string, end: nat) {
    exists i :: 0 <= i < |ds| && ds[i].key == key && ds[i].expiresAt >= end
  }

  /** The device added at `since` (or a renewal of it) is still listed, in the message's own epoch. */
  ghost predicate Listed(l: Ledger, m: Message, since: nat) {
    && m.id in l.tickets
    && l.tickets[m.id].deviceEpoch == m.epoch
    && m.expires <= since + SIGNATURE_TTL_MS
    && LivesBeyond(l.tickets[m.id].devices, m.key, since + DEVICE_LIFETIME_MS)
  }

  lemma SpentIsRejected(l: Ledger, c: Catalog, g: Gov, now: nat, caller: AccountId, m: Message, wellFormed: bool, sigOk: bool, runwayOk: bool)
    requires Spent(l, m, now)
    ensures ApplyLedger(l, c, g, now, caller, Submit(m, wellFormed, sigOk, runwayOk)).None?
  {
  }

  /** Accepting a message lists its device, or spends the message by evicting another one. */
  lemma AcceptanceLists(l: Ledger, publications: map<Id, Publication>, c: Catalog, now: nat, m: Message, wellFormed: bool, sigOk: bool, runwayOk: bool)
    requires TicketsInv(l.tickets, publications, now)
    requires AddDevice(l, c, now, m.id, m.key, m.certificate, m.epoch, m.expires, wellFormed, sigOk, runwayOk).Some?
    ensures var n := AddDevice(l, c, now, m.id, m.key, m.certificate, m.epoch, m.expires, wellFormed, sigOk, runwayOk).value;
            Listed(n, m, now) || Spent(n, m, now)
  {
    var t := l.tickets[m.id];
    assert TicketOk(t, publications, now);
    AdditionKeepsDevices(t, m.key, m.certificate, now);
    var ds := WithDevice(t, m.key, m.certificate, now).value.devices;
    assert ds[|ds| - 1].key == m.key && ds[|ds| - 1].expiresAt == now + DEVICE_LIFETIME_MS;
  }

  /** Another device's addition drops this one only with an epoch change or after its lifetime. */
  lemma AdditionKeepsOthers(t: Ticket, key: string, certificate: string, now: nat, other: string, end: nat)
    requires WithDevice(t, key, certificate, now).Some?
    requires LivesBeyond(t.devices, other, end) && now < end && end <= now + DEVICE_LIFETIME_MS
    ensures var n := WithDevice(t, key, certificate, now).value;
            n.deviceEpoch > t.deviceEpoch || LivesBeyond(n.devices, other, end)
  {
    var live := Live(t.devices, now, key);
    var n := WithDevice(t, key, certificate, now).value;
    LiveKeeps(t.devices, now, key);
    if |live| != MAX_DEVICES {
      if other == key {
        assert n.devices[|live|] == NewDevice(key, certificate, now);
      } else {
        var i :| 0 <= i < |t.devices| && t.devices[i].key == other && t.devices[i].expiresAt >= end;
        assert t.devices[i] in live;
        var j :| 0 <= j < |live| && live[j] == t.devices[i];
        assert n.devices[j] == t.devices[i];
      }
    }
  }

  /** Being finished is permanent. */
  lemma FinishedStays(l: Ledger, n: Ledger, publications: map<Id, Publication>, now: nat, id: Id)
    requires LedgerInv(l, publications, now) && LedgerInv(n, publications, now)
    requires LedgerContinues(l, n) && Finished(l, id)
    ensures Finished(n, id)
  {
    assert TicketContinues(l.tickets[id], n.tickets[id]);
    if l.tickets[id].status.Refunded? {
      assert HasRefund(l.transfers, id);
      var i :| 0 <= i < |l.transfers| && RefundOf(l.transfers[i], id);
      assert TransferContinues(l.transfers[i], n.transfers[i]);
      assert RefundOf(n.transfers[i], id);
      assert RefundFits(n.tickets, n.transfers[i]);
      forall j | 0 <= j < |n.transfers| && RefundOf(n.transfers[j], id)
        ensures !n.transfers[j].fate.Pending?
      {
        assert j == i;
      }
    }
  }

  /** Tickets are only added, and each keeps its devices and epoch. */
  ghost predicate SameDevices(before: map<Id, Ticket>, after: map<Id, Ticket>) {
    forall id {:trigger after[id]} {:trigger before[id]} | id in before ::
      id in after && after[id].devices == before[id].devices && after[id].deviceEpoch == before[id].deviceEpoch
  }

  lemma {:induction false} ReleaseKeepsDevices(l: Ledger, c: Catalog, now: nat, ids: seq<Id>)
    requires ReleaseAll(l, c, now, ids).Some?
    ensures SameDevices(l.tickets, ReleaseAll(l, c, now, ids).value.tickets)
  {
    if ids != [] {
      ReleaseKeepsDevices(l, c, now, ids[..|ids| - 1]);
      var m := ReleaseAll(l, c, now, ids[..|ids| - 1]).value;
      var n := ReleaseOne(m, c, now, ids[|ids| - 1]).value;
      assert SameDevices(m.tickets, n.tickets);
      forall id | id in l.tickets
        ensures id in n.tickets && n.tickets[id].devices == l.tickets[id].devices && n.tickets[id].deviceEpoch == l.tickets[id].deviceEpoch
      {
        assert m.tickets[id].devices == l.tickets[id].devices;
      }
    }
  }

  /** Only these calls touch an existing ticket's devices or epoch. */
  lemma OtherCallsKeepDevices(l: Ledger, c: Catalog, g: Gov, now: nat, caller: AccountId, deal: LedgerOp)
    requires !deal.DeviceAddition? && !deal.DeviceRevocation? && !deal.PlatformRevocation? && !deal.CardVoiding? && !deal.Resolution?
    requires ApplyLedger(l, c, g, now, caller, deal).Some?
    ensures SameDevices(l.tickets, ApplyLedger(l, c, g, now, caller, deal).value.tickets)
  {
    if deal.Releasing? {
      ReleaseKeepsDevices(l, c, now, deal.ids);
    }
  }

  lemma ListedSurvives(l: Ledger, n: Ledger, m: Message, since: nat)
    requires Listed(l, m, since) && SameDevices(l.tickets, n.tickets)
    ensures Listed(n, m, since)
  {
    assert n.tickets[m.id].devices == l.tickets[m.id].devices;
  }

  /** The callback of a completed refund finishes its ticket. */
  lemma ResolutionFinishes(l: Ledger, i: nat, m: Message, since: nat)
    requires RefundsInv(l.tickets, l.transfers) && Listed(l, m, since)
    requires Resolve(l, i, true).Some? && RefundOf(l.transfers[i], m.id)
    ensures Finished(Resolve(l, i, true).value, m.id)
  {
    var n := Resolve(l, i, true).value;
    assert RefundFits(l.tickets, l.transfers[i]);
    forall j | 0 <= j < |n.transfers| && RefundOf(n.transfers[j], m.id)
      ensures !n.transfers[j].fate.Pending?
    {
      assert RefundOf(l.transfers[j], m.id);
    }
  }

  lemma OtherResolutionsKeepDevices(l: Ledger, i: nat, success: bool, m: Message, since: nat)
    requires Listed(l, m, since) && Resolve(l, i, success).Some?
    requires !(success && l.transfers[i].purpose.TicketRefund? && l.transfers[i].purpose.ticketId == m.id)
    ensures Listed(Resolve(l, i, success).value, m, since)
  {
    var n := Resolve(l, i, success).value;
    assert n.tickets[m.id].devices == l.tickets[m.id].devices && n.tickets[m.id].deviceEpoch == l.tickets[m.id].deviceEpoch;
  }

  /** Calls that change devices: the message stays backed, or is spent. */
  lemma DeviceCallStep(l: Ledger, c: Catalog, g: Gov, now: nat, caller: AccountId, deal: LedgerOp, m: Message, since: nat)
    requires deal.DeviceAddition? || deal.DeviceRevocation? || deal.PlatformRevocation? || deal.CardVoiding?
    requires Listed(l, m, since) && since <= now < m.expires
    requires ApplyLedger(l, c, g, now, caller, deal).Some?
    ensures var n := ApplyLedger(l, c, g, now, caller, deal).value;
            Listed(n, m, since) || Spent(n, m, now)
  {
    var n := ApplyLedger(l, c, g, now, caller, deal).value;
    if deal.id != m.id {
      assert n.tickets[m.id] == l.tickets[m.id];
    } else if deal.DeviceAddition? {
      AdditionKeepsOthers(l.tickets[m.id], deal.key, deal.certificate, now, m.key, since + DEVICE_LIFETIME_MS);
    }
  }

  /** One call later the device is still listed, or the message is spent. */
  lemma ListedStep(l: Ledger, c: Catalog, g: Gov, now: nat, caller: AccountId, deal: LedgerOp, m: Message, since: nat)
    requires RefundsInv(l.tickets, l.transfers) && Listed(l, m, since) && since <= now < m.expires
    requires ApplyLedger(l, c, g, now, caller, deal).Some?
    ensures var n := ApplyLedger(l, c, g, now, caller, deal).value;
            Listed(n, m, since) || Spent(n, m, now)
  {
    if deal.DeviceAddition? || deal.DeviceRevocation? || deal.PlatformRevocation? || deal.CardVoiding? {
      DeviceCallStep(l, c, g, now, caller, deal, m, since);
    } else if deal.Resolution? {
      if deal.success && RefundOf(l.transfers[deal.transfer], m.id) {
        ResolutionFinishes(l, deal.transfer, m, since);
      } else {
        OtherResolutionsKeepDevices(l, deal.transfer, deal.success, m, since);
      }
    } else {
      OtherCallsKeepDevices(l, c, g, now, caller, deal);
      ListedSurvives(l, ApplyLedger(l, c, g, now, caller, deal).value, m, since);
    }
  }

  // ---------------------------------------------------------------- whole runs

  /** Step `i` of the run submits the message and is accepted. */
  ghost predicate AcceptedAt(r: Run, i: nat, m: Message) {
    && i < |r.steps| && i < |r.states|
    && r.steps[i].op.Trading?
    && (exists wellFormed, sigOk, runwayOk :: r.steps[i].op.deal == Submit(m, wellFormed, sigOk, runwayOk))
    && Apply(r.states[i], r.steps[i].now, r.steps[i].caller, r.steps[i].op).Some?
  }

  lemma FinishedNext(s: State, now: nat, step: Step, id: Id)
    requires Inv(s, now) && now <= step.now && Finished(s.ledger, id)
    ensures Finished(Next(s, step).ledger, id)
  {
    hide Inv, Finished, Apply, LedgerInv, LedgerContinues, Keeps;
    var n := Next(s, step);
    StepContinues(s, now, step);
    TimeKeepsInv(s, now, step.now);
    if Apply(s, step.now, step.caller, step.op).Some? {
      StepKeepsInv(s, step.now, step.caller, step.op);
    }
    LedgerInvLater(n, step.now, step.now);
    LedgerAges(s.ledger, s.catalog.publications, n.catalog.publications, step.now, step.now) by { LedgerInvLater(s, now, step.now); }
    FinishedStays(s.ledger, n.ledger, n.catalog.publications, step.now, id);
  }

  /** A spent message stays spent. */
  lemma SpentNext(s: State, now: nat, step: Step, m: Message)
    requires Inv(s, now) && now <= step.now && Spent(s.ledger, m, now)
    ensures Spent(Next(s, step).ledger, m, step.now)
  {
    hide Inv, Next, Finished;
    StepContinues(s, now, step);
    if Finished(s.ledger, m.id) {
      FinishedNext(s, now, step, m.id);
    }
  }

  lemma RefundsOf(l: Ledger, publications: map<Id, Publication>, now: nat)
    requires LedgerInv(l, publications, now)
    ensures RefundsInv(l.tickets, l.transfers) && TicketsInv(l.tickets, publications, now)
  {
  }

  /** A listed message stays listed until it is spent. */
  lemma ListedNext(s: State, now: nat, step: Step, m: Message, since: nat)
    requires Inv(s, now) && since <= step.now && now <= step.now && Listed(s.ledger, m, since)
    ensures Listed(Next(s, step).ledger, m, since) || Spent(Next(s, step).ledger, m, step.now)
  {
    hide Inv, LedgerInv;
    StepContinues(s, now, step);
    LedgerInvLater(s, now, step.now);
    if step.op.Trading? && step.now < m.expires && Apply(s, step.now, step.caller, step.op).Some? {
      RefundsOf(s.ledger, s.catalog.publications, step.now);
      ListedStep(s.ledger, s.catalog, s.gov, step.now, step.caller, step.op.deal, m, since);
    } else if step.now < m.expires {
      assert Next(s, step).ledger.tickets == s.ledger.tickets;
    }
  }

  lemma AcceptedNext(s: State, now: nat, step: Step, m: Message)
    requires Inv(s, now) && now <= step.now && step.op.Trading?
    requires exists wellFormed, sigOk, runwayOk :: step.op.deal == Submit(m, wellFormed, sigOk, runwayOk)
    requires Apply(s, step.now, step.caller, step.op).Some?
    ensures Listed(Next(s, step).ledger, m, step.now) || Spent(Next(s, step).ledger, m, step.now)
  {
    TimeKeepsInv(s, now, step.now);
    var wellFormed, sigOk, runwayOk :| step.op.deal == Submit(m, wellFormed, sigOk, runwayOk);
    AcceptanceLists(s.ledger, s.catalog.publications, s.catalog, step.now, m, wellFormed, sigOk, runwayOk);
  }

  /** After acceptance the message is always either backed by its listed device or spent. */
  lemma {:induction false} ListedOrSpent(r: Run, i: nat, j: nat, m: Message)
    requires Valid(r) && AcceptedAt(r, i, m) && i < j <= |r.steps|
    ensures Listed(r.states[j].ledger, m, r.steps[i].now) || Spent(r.states[j].ledger, m, Time(r, j))
    decreases j
  {
    hide Inv, Next, Apply, Listed, Spent;
    var s, now, step := r.states[j - 1], Time(r, j - 1), r.steps[j - 1];
    RunStep(r, j - 1);
    if j == i + 1 {
      AcceptedNext(s, now, step, m);
    } else {
      ListedOrSpent(r, i, j - 1, m);
      if Spent(s.ledger, m, now) {
        SpentNext(s, now, step, m);
      } else {
        ListedNext(s, now, step, m, r.steps[i].now);
      }
    }
  }

  lemma {:induction false} SpentForever(r: Run, j: nat, k: nat, m: Message)
    requires Valid(r) && j <= k <= |r.steps| && Spent(r.states[j].ledger, m, Time(r, j))
    ensures Spent(r.states[k].ledger, m, Time(r, k))
    decreases k
  {
    hide Inv, Next, Apply, Spent;
    if j < k {
      SpentForever(r, j, k - 1, m);
      RunStep(r, k - 1);
      SpentNext(r.states[k - 1], Time(r, k - 1), r.steps[k - 1], m);
    }
  }

  /** The key is not among the ticket's listed, unexpired devices. */
  predicate Departed(l: Ledger, m: Message, now: nat) {
    m.id in l.tickets ==> !InUse(l.tickets[m.id].devices, m.key, now)
  }

  /** A listed device that is not in use any more has outlived the message that added it. */
  lemma ExpiredIsSpent(l: Ledger, m: Message, since: nat, left: nat)
    requires Listed(l, m, since) && Departed(l, m, left)
    ensures m.id in l.tickets && left >= m.expires
  {
    var ds := l.tickets[m.id].devices;
    var d :| 0 <= d < |ds| && ds[d].key == m.key && ds[d].expiresAt >= since + DEVICE_LIFETIME_MS;
    assert !(ds[d].expiresAt > left);
  }

  /**
   Once the accepted message's key is not an active device any more, at some later point of the run
   and at any time from then on, whether evicted, revoked, expired, refunded or voided, the same
   message is rejected at every point and time that follow, whoever submits it.
   */
  lemma NoReplay(r: Run, i: nat, j: nat, k: nat, m: Message, left: nat, now: nat, caller: AccountId, wellFormed: bool, sigOk: bool, runwayOk: bool)
    requires Valid(r) && AcceptedAt(r, i, m) && i < j <= k <= |r.steps|
    requires Time(r, j) <= left <= now && Departed(r.states[j].ledger, m, left)
    requires Time(r, k) <= now
    ensures Apply(r.states[k], now, caller, Trading(Submit(m, wellFormed, sigOk, runwayOk))).None?
  {
    hide Next, Keeps, TransfersContinue;
    ListedOrSpent(r, i, j, m);
    if Spent(r.states[j].ledger, m, Time(r, j)) {
      SpentForever(r, j, k, m);
    } else {
      ExpiredIsSpent(r.states[j].ledger, m, r.steps[i].now, left);
      RunContinues(r, j, k);
    }
    assert Spent(r.states[k].ledger, m, now);
    SpentIsRejected(r.states[k].ledger, r.states[k].catalog, r.states[k].gov, now, caller, m, wellFormed, sigOk, runwayOk);
  }
}
