/**
 Refund and release exclude each other, each ticket's gross amount leaves escrow for good at most
 once, and a takedown decides for refund.
 */
module Outcomes {
  import opened Common
  import opened Governance
  import opened Catalog
  import opened PublicationIndex
  import opened Ledger
  import opened Books
  import opened TicketRules
  import opened LedgerSteps
  import opened Runs
  import opened History
  import opened Releases
  import opened Solvency

  // ---------------------------------------------------------------- never both

  /**
   At no time can one ticket be both refunded and released: an accepted refund, by whomever,
   means that a batch naming the ticket would skip it.
   */
  lemma RefundExcludesRelease(l: Ledger, c: Catalog, g: Gov, now: nat, caller: AccountId, id: Id, refundTo: AccountId,
                              expires: nat, sigOk: bool, ids: seq<Id>)
    requires Refund(l, c, g, now, caller, id, refundTo, expires, sigOk).Some?
    requires ReleaseAll(l, c, now, ids).Some?
    ensures id in l.tickets && id in ReleaseAll(l, c, now, ids).value.tickets
    ensures ReleaseAll(l, c, now, ids).value.tickets[id] == l.tickets[id]
  {
    ReleaseAllTickets(l, c, now, ids);
    assert ReleaseAll(l, c, now, ids).value.tickets[id] == AfterRelease(l.tickets[id], c, now, id in ids);
  }

  // ---------------------------------------------------------------- at most once

  /** Step `i` completes the refund of the ticket. */
  ghost predicate RefundPaidAt(r: Run, i: nat, id: Id) {
    && i < |r.steps| && i + 1 < |r.states|
    && var xs, ys := r.states[i].ledger.transfers, r.states[i + 1].ledger.transfers;
    && |xs| <= |ys|
    && exists k :: 0 <= k < |xs| && RefundOf(xs[k], id) && xs[k].fate.Pending? && ys[k].fate.Paid?
  }

  /** Step `i` releases the ticket. */
  ghost predicate ReleasedAt(r: Run, i: nat, id: Id) {
    && i < |r.steps| && i + 1 < |r.states|
    && id in r.states[i].ledger.tickets && id in r.states[i + 1].ledger.tickets
    && !r.states[i].ledger.tickets[id].status.Released? && r.states[i + 1].ledger.tickets[id].status.Released?
  }

  ghost predicate RefundIsPaid(xs: seq<Transfer>, id: Id) {
    exists k :: 0 <= k < |xs| && RefundOf(xs[k], id) && xs[k].fate.Paid?
  }

  /** A paid refund is the only one, and its ticket stays refunded. */
  lemma PaidRefundIsFinal(r: Run, i: nat, id: Id)
    requires Valid(r) && i <= |r.steps| && RefundIsPaid(r.states[i].ledger.transfers, id)
    ensures var l := r.states[i].ledger;
            && id in l.tickets && l.tickets[id].status.Refunded?
            && (forall k | 0 <= k < |l.transfers| && RefundOf(l.transfers[k], id) :: l.transfers[k].fate.Paid?)
  {
    hide BooksInv, TicketsInv, CardsInv;
    var xs := r.states[i].ledger.transfers;
    LedgerIsSound(r, i);
    var p :| 0 <= p < |xs| && RefundOf(xs[p], id) && xs[p].fate.Paid?;
    assert RefundFits(r.states[i].ledger.tickets, xs[p]);
    forall k | 0 <= k < |xs| && RefundOf(xs[k], id)
      ensures k == p
    {
    }
  }

  lemma PaidRefundStays(r: Run, i: nat, j: nat, id: Id)
    requires Valid(r) && i <= j <= |r.steps| && RefundIsPaid(r.states[i].ledger.transfers, id)
    ensures RefundIsPaid(r.states[j].ledger.transfers, id)
  {
    hide Keeps, TicketsContinue, Next;
    var xs, ys := r.states[i].ledger.transfers, r.states[j].ledger.transfers;
    RunContinues(r, i, j);
    var k :| 0 <= k < |xs| && RefundOf(xs[k], id) && xs[k].fate.Paid?;
    assert TransferContinues(xs[k], ys[k]);
    assert RefundOf(ys[k], id);
  }

  lemma PaidAtMeansPaid(r: Run, i: nat, id: Id)
    requires Valid(r) && RefundPaidAt(r, i, id)
    ensures RefundIsPaid(r.states[i + 1].ledger.transfers, id)
  {
    hide Keeps, TicketsContinue, Next;
    var xs, ys := r.states[i].ledger.transfers, r.states[i + 1].ledger.transfers;
    RunContinues(r, i, i + 1);
    var k :| 0 <= k < |xs| && RefundOf(xs[k], id) && xs[k].fate.Pending? && ys[k].fate.Paid?;
    assert TransferContinues(xs[k], ys[k]);
    assert RefundOf(ys[k], id);
  }

  lemma ReleasedStays(r: Run, i: nat, j: nat, id: Id)
    requires Valid(r) && i <= j <= |r.steps| && id in r.states[i].ledger.tickets && r.states[i].ledger.tickets[id].status.Released?
    ensures id in r.states[j].ledger.tickets && r.states[j].ledger.tickets[id].status.Released?
  {
    hide Keeps, TransfersContinue, Next;
    RunContinues(r, i, j);
    assert TicketContinues(r.states[i].ledger.tickets[id], r.states[j].ledger.tickets[id]);
  }

  /** A refund in flight or paid, and a release, contradict each other. */
  lemma RefundIsOfRefunded(r: Run, i: nat, k: nat, id: Id)
    requires Valid(r) && i <= |r.steps| && k < |r.states[i].ledger.transfers| && RefundOf(r.states[i].ledger.transfers[k], id)
    ensures id in r.states[i].ledger.tickets && r.states[i].ledger.tickets[id].status.Refunded?
  {
    hide BooksInv, TicketsInv, CardsInv;
    LedgerIsSound(r, i);
    assert RefundFits(r.states[i].ledger.tickets, r.states[i].ledger.transfers[k]);
  }

  /** The gross amount of a ticket leaves escrow for good at most once in a run. */
  lemma LeavesForGoodOnce(r: Run, i: nat, j: nat, id: Id)
    requires Valid(r) && i < j
    requires RefundPaidAt(r, i, id) || ReleasedAt(r, i, id)
    ensures !RefundPaidAt(r, j, id) && !ReleasedAt(r, j, id)
  {
    hide Next, RefundIsPaid, LedgerContinues;
    if j < |r.steps| && |r.states| == |r.steps| + 1 {
      if RefundPaidAt(r, i, id) {
        PaidAtMeansPaid(r, i, id);
        PaidRefundStays(r, i + 1, j, id);
        PaidRefundStays(r, j, j + 1, id);
        PaidRefundIsFinal(r, j, id);
        PaidRefundIsFinal(r, j + 1, id);
      } else {
        ReleasedStays(r, i + 1, j, id);
        var xs := r.states[j].ledger.transfers;
        forall k | 0 <= k < |xs|
          ensures !RefundOf(xs[k], id)
        {
          if RefundOf(xs[k], id) {
            RefundIsOfRefunded(r, j, k, id);
          }
        }
      }
    }
  }

  // ---------------------------------------------------------------- takedown

  /** Only a release from an open ticket makes it released; no other call or callback does. */
  lemma ReleasedOnlyByRelease(l: Ledger, c: Catalog, g: Gov, now: nat, caller: AccountId, deal: LedgerOp, id: Id)
    requires RefundsInv(l.tickets, l.transfers) && ApplyLedger(l, c, g, now, caller, deal).Some?
    requires id in l.tickets && !l.tickets[id].status.Released?
    ensures var n := ApplyLedger(l, c, g, now, caller, deal).value;
            id in n.tickets && (n.tickets[id].status.Released? ==> deal.Releasing? && ReleaseOpen(l.tickets[id], c, now))
  {
    match deal
    case Releasing(ids, _) =>
      ReleaseAllTickets(l, c, now, ids);
      assert ReleaseAll(l, c, now, ids).value.tickets[id] == AfterRelease(l.tickets[id], c, now, id in ids);
    case Resolution(i, success) => assert l.transfers[i].fate.Returned? || RefundFits(l.tickets, l.transfers[i]);
    case _ =>
  }

  lemma TakedownStays(r: Run, i: nat, j: nat, publicationId: Id)
    requires Valid(r) && i <= j <= |r.steps| && TakenDown(r.states[i].catalog, publicationId)
    ensures TakenDown(r.states[j].catalog, publicationId)
  {
    hide LedgerContinues, Next;
    RunContinues(r, i, j);
    assert r.states[j].catalog.publications[publicationId].availability
           == r.states[i].catalog.publications[publicationId].(availability := r.states[j].catalog.publications[publicationId].availability).availability;
  }

  lemma TakenDownStep(s: State, now: nat, step: Step, id: Id)
    requires Inv(s, now) && id in s.ledger.tickets && !s.ledger.tickets[id].status.Released?
    requires TakenDown(s.catalog, s.ledger.tickets[id].publicationId)
    ensures id in Next(s, step).ledger.tickets && !Next(s, step).ledger.tickets[id].status.Released?
  {
    hide GovInv, IndexInv, Admission.AdmissionInv, FeesInv, BooksInv, TicketsInv, CardsInv, RefundsInv, FundJob, FundJobNear;
    if step.op.Trading? && Apply(s, step.now, step.caller, step.op).Some? {
      ReleasedOnlyByRelease(s.ledger, s.catalog, s.gov, step.now, step.caller, step.op.deal, id);
    }
  }

  /** A ticket that was not released before its publication was taken down never is. */
  lemma {:induction false} TakenDownIsNeverReleased(r: Run, i: nat, j: nat, id: Id)
    requires Valid(r) && i <= j <= |r.steps| && id in r.states[i].ledger.tickets
    requires !r.states[i].ledger.tickets[id].status.Released?
    requires TakenDown(r.states[i].catalog, r.states[i].ledger.tickets[id].publicationId)
    ensures id in r.states[j].ledger.tickets && !r.states[j].ledger.tickets[id].status.Released?
    ensures TakenDown(r.states[j].catalog, r.states[j].ledger.tickets[id].publicationId)
    decreases j
  {
    hide Inv, Next, Keeps, TakenDown, TransfersContinue;
    if i < j {
      TakenDownIsNeverReleased(r, i, j - 1, id);
      RunStep(r, j - 1);
      TakenDownStep(r.states[j - 1], r.steps[j - 1].now, r.steps[j - 1], id);
      RunContinues(r, i, j);
      assert TicketContinues(r.states[i].ledger.tickets[id], r.states[j].ledger.tickets[id]);
      TakedownStays(r, i, j, r.states[i].ledger.tickets[id].publicationId);
    }
  }

  /**
   After a takedown every ticket still in escrow can be refunded by anybody holding the buyer's
   signature, at any later time, with no deadline, pause or role in the way.
   */
  lemma TakenDownIsRefundable(r: Run, i: nat, j: nat, id: Id, now: nat, caller: AccountId, refundTo: AccountId, expires: nat)
    requires Valid(r) && i <= j <= |r.steps| && Time(r, j) <= now
    requires id in r.states[i].ledger.tickets && TakenDown(r.states[i].catalog, r.states[i].ledger.tickets[id].publicationId)
    requires id in r.states[j].ledger.tickets && InEscrow(r.states[j].ledger.tickets[id])
    requires InTime(expires, now, REFUND_SIGNATURE_TTL_MS)
    ensures Refund(r.states[j].ledger, r.states[j].catalog, r.states[j].gov, now, caller, id, refundTo, expires, true).Some?
  {
    hide Next, Keeps, TransfersContinue, TakenDown;
    EscrowIsTheTicketsInIt(r, j, id);
    RunContinues(r, i, j);
    assert TicketContinues(r.states[i].ledger.tickets[id], r.states[j].ledger.tickets[id]);
    TakedownStays(r, i, j, r.states[i].ledger.tickets[id].publicationId);
  }

  /** Outside takedown only the payment operator can refund, and only while the escrow period runs. */
  lemma RefundNeedsOperator(r: Run, i: nat, now: nat, caller: AccountId, id: Id, refundTo: AccountId, expires: nat, sigOk: bool)
    requires Valid(r) && i <= |r.steps|
    requires Refund(r.states[i].ledger, r.states[i].catalog, r.states[i].gov, now, caller, id, refundTo, expires, sigOk).Some?
    requires !TakenDown(r.states[i].catalog, r.states[i].ledger.tickets[id].publicationId)
    ensures caller == r.states[i].gov.roles.operator && now < r.states[i].ledger.tickets[id].purchasedAt + ESCROW_MS
    ensures caller != r.states[i].gov.roles.bridge && caller != r.states[i].gov.roles.platform && caller != r.states[i].gov.roles.admin
  {
    hide LedgerInv, FeesInv, IndexInv, Admission.AdmissionInv;
    RunsKeepInv(r, i);
  }
}
