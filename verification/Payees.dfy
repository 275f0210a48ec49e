/** Whose money goes where: every transfer of a run goes back to one accepted call, and to the account that call is for. */
module Payees {
  import opened Common
  import opened Governance
  import opened Catalog
  import opened Ledger
  import opened Books
  import opened Releases
  import opened Runs
  import opened History

  /**
   The call starts the transfer: a creator's own withdrawal of its whole balance to itself, a
   withdrawal of the tax or platform balance to the account that holds the role at that time, or
   an accepted refund of the ticket's whole price to the account that the buyer's signature names.
   */
  ghost predicate Starts(s: State, step: Step, x: Transfer) {
    && step.op.Trading? && Apply(s, step.now, step.caller, step.op).Some?
    && var deal := step.op.deal;
    match x.purpose
    case CreatorPayout(a) => deal.CreatorWithdrawal? && step.caller == a == x.receiver && x.amount == Lookup(s.ledger.creators, a)
    case PlatformPayout => deal.PlatformWithdrawal? && step.caller == s.gov.roles.platform == x.receiver && x.amount == s.ledger.platform
    case TaxPayout => deal.TaxWithdrawal? && x.receiver == s.gov.roles.tax && x.amount == s.ledger.tax
    case NearPayout => deal.NearWithdrawal? && step.caller == s.gov.roles.platform == x.receiver && x.amount == deal.nearAmount
    case TicketRefund(id, restore) =>
      && deal.Refunding? && deal.id == id && deal.refundTo == x.receiver && deal.sigOk
      && id in s.ledger.tickets && x.amount == s.ledger.tickets[id].gross && restore == s.ledger.tickets[id].status
  }

  /** A step starts at most one transfer, and then it is the call for it. */
  lemma TransferStep(s: State, step: Step)
    ensures var xs, ys := s.ledger.transfers, Next(s, step).ledger.transfers;
            && |xs| <= |ys| <= |xs| + 1
            && (|ys| == |xs| + 1 ==> Starts(s, step, ys[|xs|]))
  {
    hide ApplyGov, ApplyCatalog, FundJob, FundJobNear;
    if step.op.Trading? && step.op.deal.Releasing? && ReleaseAll(s.ledger, s.catalog, step.now, step.op.deal.ids).Some? {
      ReleaseAllFrame(s.ledger, s.catalog, step.now, step.op.deal.ids);
    }
  }

  /** State `i` of the run has this transfer because of step `q`. */
  ghost predicate StartedAt(r: Run, q: nat, i: nat, k: nat)
    requires |r.states| == |r.steps| + 1 && i <= |r.steps| && k < |r.states[i].ledger.transfers|
  {
    q < i && |r.states[q].ledger.transfers| == k && Starts(r.states[q], r.steps[q], r.states[i].ledger.transfers[k])
  }

  lemma StartsWithoutTransfers(r: Run)
    requires Valid(r)
    ensures r.states[0].ledger == EMPTY_LEDGER
  {
  }

  lemma StartsWhateverItsFate(s: State, step: Step, x: Transfer, y: Transfer)
    requires Starts(s, step, x) && TransferContinues(x, y)
    ensures Starts(s, step, y)
  {
  }

  /** Every transfer of a run was started by one accepted call, for what that call's account was due, to that account. */
  lemma {:induction false} EveryTransferHasItsCall(r: Run, i: nat, k: nat)
    requires Valid(r) && i <= |r.steps| && k < |r.states[i].ledger.transfers|
    ensures exists q: nat :: StartedAt(r, q, i, k)
    decreases i
  {
    hide Next, Starts, PublicationIndex.Keeps, TicketsContinue;
    if i == 0 {
      StartsWithoutTransfers(r);
    } else {
      assert r.states[(i - 1) + 1] == Next(r.states[i - 1], r.steps[i - 1]);
      TransferStep(r.states[i - 1], r.steps[i - 1]);
      if k < |r.states[i - 1].ledger.transfers| {
        EveryTransferHasItsCall(r, i - 1, k);
        var q: nat :| StartedAt(r, q, i - 1, k);
        RunContinues(r, i - 1, i);
        assert TransferContinues(r.states[i - 1].ledger.transfers[k], r.states[i].ledger.transfers[k]);
        StartsWhateverItsFate(r.states[q], r.steps[q], r.states[i - 1].ledger.transfers[k], r.states[i].ledger.transfers[k]);
        assert StartedAt(r, q, i, k);
      } else {
        assert StartedAt(r, i - 1, i, k);
      }
    }
  }

  // ---------------------------------------------------------------- parties

  /** The account that a call may send a party's money to. */
  function Payee(g: Gov, p: Party, deal: LedgerOp): Option<AccountId> {
    match p
    case Escrow => None
    case TaxOffice => Some(g.roles.tax)
    case PlatformOwner => Some(g.roles.platform)
    case Creator(a) => Some(a)
    case Buyers => if deal.Refunding? then Some(deal.refundTo) else None
  }

  /** The transfer was started by an accepted call and goes to the account of this party. */
  ghost predicate Reaches(r: Run, i: nat, k: nat, p: Party)
    requires |r.states| == |r.steps| + 1 && i <= |r.steps| && k < |r.states[i].ledger.transfers|
  {
    exists q: nat :: StartedAt(r, q, i, k) && Payee(r.states[q].gov, p, r.steps[q].op.deal) == Some(r.states[i].ledger.transfers[k].receiver)
  }

  /** What counts as sent to a party was sent to that party's account. */
  lemma SentReachesItsParty(r: Run, i: nat, k: nat, p: Party)
    requires Valid(r) && i <= |r.steps| && k < |r.states[i].ledger.transfers|
    requires Sent(r.states[i].ledger.transfers[k], p) > 0
    ensures Reaches(r, i, k, p)
  {
    EveryTransferHasItsCall(r, i, k);
    hide Valid, Apply;
    var q: nat :| StartedAt(r, q, i, k);
    assert Payee(r.states[q].gov, p, r.steps[q].op.deal) == Some(r.states[i].ledger.transfers[k].receiver);
  }

  lemma TaxStep(s: State, step: Step)
    ensures Next(s, step).gov.roles.tax == s.gov.roles.tax
  {
    hide ApplyCatalog, ApplyLedger, FundJob, FundJobNear, CreditFee, CreditNearFee;
  }

  /** The tax account is the one named at creation: tax money never goes anywhere else. */
  lemma {:induction false} TaxAccountIsFixed(r: Run, i: nat)
    requires Valid(r) && i <= |r.steps|
    ensures r.states[i].gov.roles.tax == r.states[0].gov.roles.tax
  {
    hide Next;
    if i > 0 {
      TaxAccountIsFixed(r, i - 1);
      assert r.states[(i - 1) + 1] == Next(r.states[i - 1], r.steps[i - 1]);
      TaxStep(r.states[i - 1], r.steps[i - 1]);
    }
  }
}
