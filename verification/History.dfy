/** What no call or callback ever undoes: finished tickets, transfer records, takedowns. */
module History {
  import opened Common
  import opened Governance
  import opened Catalog
  import opened PublicationIndex
  import opened Ledger
  import opened Runs
  import opened LedgerSteps
  import opened Books

  /** A ticket keeps its identity and price; its epoch only grows; released and voided are final. */
  predicate TicketContinues(t: Ticket, n: Ticket) {
    && n == t.(status := n.status, deviceEpoch := n.deviceEpoch, devices := n.devices)
    && t.deviceEpoch <= n.deviceEpoch
    && (t.status.Released? ==> n.status.Released?)
    && (t.status.Voided? ==> n.status.Voided?)
  }

  /** A transfer keeps what it was; once its fate is known it stays known. */
  predicate TransferContinues(x: Transfer, y: Transfer) {
    y == x.(fate := y.fate) && (!x.fate.Pending? ==> y.fate == x.fate)
  }

  ghost predicate TicketsContinue(before: map<Id, Ticket>, after: map<Id, Ticket>) {
    forall id {:trigger after[id]} {:trigger before[id]} | id in before :: id in after && TicketContinues(before[id], after[id])
  }

  ghost predicate TransfersContinue(before: seq<Transfer>, after: seq<Transfer>) {
    |before| <= |after| && forall i {:trigger after[i]} {:trigger before[i]} | 0 <= i < |before| :: TransferContinues(before[i], after[i])
  }

  ghost predicate LedgerContinues(l: Ledger, n: Ledger) {
    && TicketsContinue(l.tickets, n.tickets)
    && TransfersContinue(l.transfers, n.transfers)
    && l.received <= n.received && l.nearFees <= n.nearFees
  }

  lemma Stays(l: Ledger)
    ensures LedgerContinues(l, l)
  {
  }

  lemma Chains(a: Ledger, b: Ledger, c: Ledger)
    requires LedgerContinues(a, b) && LedgerContinues(b, c)
    ensures LedgerContinues(a, c)
  {
    forall id | id in a.tickets
      ensures id in c.tickets && TicketContinues(a.tickets[id], c.tickets[id])
    {
      assert TicketContinues(a.tickets[id], b.tickets[id]);
    }
    forall i | 0 <= i < |a.transfers|
      ensures TransferContinues(a.transfers[i], c.transfers[i])
    {
      assert TransferContinues(a.transfers[i], b.transfers[i]);
    }
  }

  lemma {:induction false} ReleaseContinues(l: Ledger, c: Catalog, now: nat, ids: seq<Id>)
    requires ReleaseAll(l, c, now, ids).Some?
    ensures LedgerContinues(l, ReleaseAll(l, c, now, ids).value)
  {
    if ids != [] {
      var rest, last := ids[..|ids| - 1], ids[|ids| - 1];
      ReleaseContinues(l, c, now, rest);
      var m := ReleaseAll(l, c, now, rest).value;
      assert LedgerContinues(m, ReleaseOne(m, c, now, last).value);
      Chains(l, m, ReleaseOne(m, c, now, last).value);
    }
  }

  lemma ResolveContinues(l: Ledger, i: nat, success: bool)
    requires Resolve(l, i, success).Some? && RefundFits(l.tickets, l.transfers[i])
    ensures LedgerContinues(l, Resolve(l, i, success).value)
  {
    var x := l.transfers[i];
    var n := Resolve(l, i, success).value;
    assert TransfersContinue(l.transfers, n.transfers);
    if x.purpose.TicketRefund? {
      var id := x.purpose.ticketId;
      var t := l.tickets[id];
      assert n.tickets == l.tickets[id := n.tickets[id]];
      assert TicketContinues(t, n.tickets[id]);
    } else {
      assert n.tickets == l.tickets;
    }
  }

  lemma RefundContinues(l: Ledger, id: Id, to: AccountId)
    requires id in l.tickets && InEscrow(l.tickets[id]) && l.tickets[id].gross <= l.escrow
    ensures LedgerContinues(l, StartRefund(l, id, to))
  {
  }

  lemma PayoutContinues(l: Ledger, c: Catalog, g: Gov, now: nat, caller: AccountId, deal: LedgerOp)
    requires deal.CreatorWithdrawal? || deal.PlatformWithdrawal? || deal.TaxWithdrawal? || deal.NearWithdrawal?
    requires ApplyLedger(l, c, g, now, caller, deal).Some?
    ensures LedgerContinues(l, ApplyLedger(l, c, g, now, caller, deal).value)
  {
  }

  lemma TicketCallContinues(l: Ledger, c: Catalog, g: Gov, now: nat, caller: AccountId, deal: LedgerOp)
    requires deal.Watching? || deal.DeviceAddition? || deal.DeviceRevocation? || deal.PlatformRevocation? || deal.CardVoiding?
    requires ApplyLedger(l, c, g, now, caller, deal).Some?
    ensures LedgerContinues(l, ApplyLedger(l, c, g, now, caller, deal).value)
  {
    var n := ApplyLedger(l, c, g, now, caller, deal).value;
    if n != l {
      assert n == l.(tickets := l.tickets[deal.id := n.tickets[deal.id]]);
      assert TicketContinues(l.tickets[deal.id], n.tickets[deal.id]);
    }
  }

  lemma LedgerStepContinues(l: Ledger, c: Catalog, g: Gov, now: nat, caller: AccountId, deal: LedgerOp)
    requires LedgerInv(l, c.publications, now)
    requires ApplyLedger(l, c, g, now, caller, deal).Some?
    ensures LedgerContinues(l, ApplyLedger(l, c, g, now, caller, deal).value)
  {
    match deal
    case Releasing(ids, _) => ReleaseContinues(l, c, now, ids);
    case Refunding(id, to, _, _) =>
      EscrowCoversTicket(l, id);
      RefundContinues(l, id, to);
    case Resolution(i, success) =>
      assert RefundFits(l.tickets, l.transfers[i]);
      ResolveContinues(l, i, success);
    case Buying(_, _, _) =>
    case CardIssue(_, _, _) =>
    case Watching(_) => TicketCallContinues(l, c, g, now, caller, deal);
    case DeviceAddition(_, _, _, _, _, _, _, _) => TicketCallContinues(l, c, g, now, caller, deal);
    case DeviceRevocation(_, _, _, _, _, _) => TicketCallContinues(l, c, g, now, caller, deal);
    case PlatformRevocation(_, _, _) => TicketCallContinues(l, c, g, now, caller, deal);
    case CardVoiding(_, _) => TicketCallContinues(l, c, g, now, caller, deal);
    case CreatorWithdrawal => PayoutContinues(l, c, g, now, caller, deal);
    case PlatformWithdrawal => PayoutContinues(l, c, g, now, caller, deal);
    case TaxWithdrawal => PayoutContinues(l, c, g, now, caller, deal);
    case NearWithdrawal(_, _) => PayoutContinues(l, c, g, now, caller, deal);
  }

  ghost predicate Continues(s: State, n: State) {
    LedgerContinues(s.ledger, n.ledger) && Keeps(s.catalog.publications, n.catalog.publications)
  }

  lemma FundingContinues(s: State, now: nat, caller: AccountId, op: Op)
    requires (op.JobFunding? || op.NearJobFunding?) && Apply(s, now, caller, op).Some?
    ensures Continues(s, Apply(s, now, caller, op).value)
  {
    var n := Apply(s, now, caller, op).value;
    assert n.ledger.tickets == s.ledger.tickets && n.ledger.transfers == s.ledger.transfers;
    assert n.catalog.publications == s.catalog.publications;
  }

  lemma StepContinues(s: State, now: nat, step: Step)
    requires Inv(s, now) && now <= step.now
    ensures Continues(s, Next(s, step))
  {
    hide Inv, LedgerContinues, Keeps;
    var n := Next(s, step);
    Stays(s.ledger);
    KeepsItself(s.catalog.publications);
    if Apply(s, step.now, step.caller, step.op).Some? {
      match step.op
      case Trading(deal) =>
        LedgerInvLater(s, now, step.now);
        LedgerStepContinues(s.ledger, s.catalog, s.gov, step.now, step.caller, deal);
      case Cataloguing(entry) =>
        CatalogStepKeepsPublications(s.catalog, s.gov, step.now, step.caller, entry);
        assert n.ledger == s.ledger;
      case Governing(_) =>
      case JobFunding(_, _, _, _, _) => FundingContinues(s, step.now, step.caller, step.op);
      case NearJobFunding(_, _, _, _, _) => FundingContinues(s, step.now, step.caller, step.op);
    }
  }

  /** From any state of a run to any later one. */
  lemma {:induction false} RunContinues(r: Run, i: nat, j: nat)
    requires Valid(r) && i <= j <= |r.steps|
    ensures Continues(r.states[i], r.states[j])
    decreases j
  {
    hide Inv, LedgerContinues, Keeps, Next;
    Stays(r.states[i].ledger);
    KeepsItself(r.states[i].catalog.publications);
    if i < j {
      RunContinues(r, i, j - 1);
      RunStep(r, j - 1);
      StepContinues(r.states[j - 1], Time(r, j - 1), r.steps[j - 1]);
      Chains(r.states[i].ledger, r.states[j - 1].ledger, r.states[j].ledger);
      KeepsChain(r.states[i].catalog.publications, r.states[j - 1].catalog.publications, r.states[j].catalog.publications);
    }
  }
}
