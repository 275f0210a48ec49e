/** What the market's books guarantee in every state of every run. */
module Solvency {
  import opened Common
  import opened Sums
  import opened Money
  import opened Governance
  import opened Catalog
  import opened PublicationIndex
  import opened Ledger
  import opened Books
  import opened TicketRules
  import opened LedgerSteps
  import opened Releases
  import opened Runs
  import opened History
  import opened Payees

  lemma LedgerIsSound(r: Run, i: nat)
    requires Valid(r) && i <= |r.steps|
    ensures LedgerInv(r.states[i].ledger, r.states[i].catalog.publications, Time(r, i))
    ensures FeesInv(r.states[i].catalog.jobs, r.states[i].ledger)
  {
    hide GovInv, IndexInv, Admission.AdmissionInv, LedgerInv, FeesInv;
    RunsKeepInv(r, i);
  }

  // ---------------------------------------------------------------- tokens received

  /** What a call keeps of the tokens attached to it; the rest goes back to the sender. */
  function Kept(s: State, step: Step): nat {
    match step.op
    case JobFunding(amount, request, quote, quoteOk, runwayOk) =>
      var f := FundJob(s.catalog, s.gov, step.now, amount, request, quote, quoteOk, runwayOk);
      if f.Some? && f.value.Created? && CreditFee(s.ledger, amount).Some? then amount else 0
    case Trading(deal) =>
      if deal.Buying? then
        var sale := Buy(s.ledger, s.catalog, s.gov, step.now, deal.amount, deal.purchase, deal.runwayOk);
        if sale.Some? && sale.value.Sold? then deal.amount else 0
      else 0
    case _ => 0
  }

  ghost function TotalKept(r: Run, i: nat): nat
    requires i <= |r.steps| && |r.states| == |r.steps| + 1
  {
    if i == 0 then 0 else TotalKept(r, i - 1) + Kept(r.states[i - 1], r.steps[i - 1])
  }

  lemma StepReceivesKept(s: State, step: Step)
    ensures Next(s, step).ledger.received == s.ledger.received + Kept(s, step)
  {
    if step.op.Trading? && step.op.deal.Releasing? {
      if ReleaseAll(s.ledger, s.catalog, step.now, step.op.deal.ids).Some? {
        ReleaseAllFrame(s.ledger, s.catalog, step.now, step.op.deal.ids);
      }
    }
  }

  lemma {:induction false} ReceivedIsKept(r: Run, i: nat)
    requires Valid(r) && i <= |r.steps|
    ensures r.states[i].ledger.received == TotalKept(r, i)
  {
    if i > 0 {
      ReceivedIsKept(r, i - 1);
      assert r.states[(i - 1) + 1] == Next(r.states[i - 1], r.steps[i - 1]);
      StepReceivesKept(r.states[i - 1], r.steps[i - 1]);
    }
  }

  /**
   Conservation. In every state of every run, the tokens kept so far are exactly what the
   contract still owes, what is in flight, what was paid out, and what a failed callback lost;
   they came in as ticket prices and job fees.
   */
  lemma Conservation(r: Run, i: nat)
    requires Valid(r) && i <= |r.steps|
    ensures var l := r.states[i].ledger;
            && TotalKept(r, i) == l.escrow + l.tax + l.platform + Sum(l.creators, Itself())
                                  + Total(l.transfers, WithFate(Pending)) + Total(l.transfers, WithFate(Paid))
                                  + Total(l.transfers, WithFate(Lost))
            && TotalKept(r, i) == Sum(l.tickets, GrossOf()) + Sum(r.states[i].catalog.jobs, UsdcFee())
  {
    LedgerIsSound(r, i);
    ReceivedIsKept(r, i);
    ConservationByFate(r.states[i].ledger);
  }

  /**
   Nobody's money turns into somebody else's: in every state each party has, or was sent,
   exactly what the tickets say it is due, and whatever was sent to it went to its own account:
   a creator's to the creator, the tax office's and the platform's to the account in that role when
   the transfer started, a buyer's refund to the account that the accepted refund names.
   */
  lemma EveryPartyIsSettled(r: Run, i: nat, p: Party)
    requires Valid(r) && i <= |r.steps|
    ensures var l := r.states[i].ledger;
            Balance(l, p) + Total(l.transfers, SentTo(p))
            == Sum(l.tickets, ShareOf(p)) + (if p.PlatformOwner? then Sum(r.states[i].catalog.jobs, UsdcFee()) else 0)
    ensures forall k | 0 <= k < |r.states[i].ledger.transfers| && Sent(r.states[i].ledger.transfers[k], p) > 0 :: Reaches(r, i, k, p)
  {
    LedgerIsSound(r, i);
    assert Settled(r.states[i].ledger, p);
    hide Valid, Reaches;
    forall k | 0 <= k < |r.states[i].ledger.transfers| && Sent(r.states[i].ledger.transfers[k], p) > 0
      ensures Reaches(r, i, k, p)
    {
      SentReachesItsParty(r, i, k, p);
    }
  }

  /** Escrow is the sum over the tickets still in it, and covers each of them: no subtraction from it can fail. */
  lemma EscrowIsTheTicketsInIt(r: Run, i: nat, id: Id)
    requires Valid(r) && i <= |r.steps|
    ensures r.states[i].ledger.escrow == Sum(r.states[i].ledger.tickets, ShareOf(Escrow))
    ensures var l := r.states[i].ledger; id in l.tickets && InEscrow(l.tickets[id]) ==> l.tickets[id].gross <= l.escrow
  {
    var l := r.states[i].ledger;
    LedgerIsSound(r, i);
    EveryPartyIsSettled(r, i, Escrow);
    EscrowIsNeverSent(l.transfers);
    if id in l.tickets && InEscrow(l.tickets[id]) {
      EscrowCoversTicket(l, id);
    }
  }

  /** Card tickets hold no money, and the recorded references are exactly theirs, one ticket each. */
  lemma CardReferencesMatch(r: Run, i: nat, reference: string)
    requires Valid(r) && i <= |r.steps|
    ensures var l := r.states[i].ledger;
            && (reference in l.cardReferences <==>
                  exists id :: id in l.tickets && l.tickets[id].rail.Card? && l.tickets[id].card.Some? && l.tickets[id].card.value.reference == reference)
            && (forall a, b | a in l.tickets && b in l.tickets && l.tickets[a].card.Some? && l.tickets[b].card == l.tickets[a].card :: a == b)
            && (forall id | id in l.tickets && l.tickets[id].rail.Card? :: l.tickets[id].gross == 0 && l.tickets[id].card.Some?)
  {
    hide BooksInv, RefundsInv;
    var l := r.states[i].ledger;
    LedgerIsSound(r, i);
    forall id | id in l.tickets
      ensures TicketOk(l.tickets[id], r.states[i].catalog.publications, Time(r, i))
    {
    }
    if reference in l.cardReferences {
      assert CardFor(l.tickets, reference);
    }
  }

  // ---------------------------------------------------------------- callbacks

  ghost predicate NoneLost(xs: seq<Transfer>) {
    forall i | 0 <= i < |xs| :: !xs[i].fate.Lost?
  }

  lemma ResolveLosesNothing(l: Ledger, i: nat, success: bool)
    requires Conserved(l) && NoneLost(l.transfers) && Resolve(l, i, success).Some?
    requires RefundFits(l.tickets, l.transfers[i])
    requires InCirculation(l) <= U128_MAX && l.nearFees <= U128_MAX
    ensures NoneLost(Resolve(l, i, success).value.transfers)
  {
    CallbacksRestore(l, i);
  }

  lemma StepLosesNothing(s: State, now: nat, step: Step)
    requires LedgerInv(s.ledger, s.catalog.publications, now)
    requires NoneLost(s.ledger.transfers)
    requires InCirculation(s.ledger) <= U128_MAX && s.ledger.nearFees <= U128_MAX
    ensures NoneLost(Next(s, step).ledger.transfers)
  {
    hide AllSettled, TicketsInv, CardsInv, ApplyGov, ApplyCatalog, FundJob, FundJobNear, SplitTicket;
    var l := s.ledger;
    if step.op.Trading? && Apply(s, step.now, step.caller, step.op).Some? {
      match step.op.deal
      case Releasing(ids, _) => ReleaseAllFrame(l, s.catalog, step.now, ids);
      case Resolution(i, success) =>
        assert RefundFits(l.tickets, l.transfers[i]);
        ResolveLosesNothing(l, i, success);
      case _ =>
    }
  }

  /**
   No callback ever loses a liability, whatever ran between a transfer and its outcome, as long
   as the tokens in circulation before each step fit 128 bits.
   */
  lemma {:induction false} NothingIsLost(r: Run, i: nat)
    requires Valid(r) && i <= |r.steps|
    requires forall k {:trigger r.states[k]} | 0 <= k < i :: InCirculation(r.states[k].ledger) <= U128_MAX && r.states[k].ledger.nearFees <= U128_MAX
    ensures NoneLost(r.states[i].ledger.transfers)
  {
    hide Next, LedgerInv, InCirculation, FeesInv;
    if i == 0 {
      StartsWithoutTransfers(r);
    } else {
      NothingIsLost(r, i - 1);
      LedgerIsSound(r, i - 1);
      assert r.states[(i - 1) + 1] == Next(r.states[i - 1], r.steps[i - 1]);
      StepLosesNothing(r.states[i - 1], Time(r, i - 1), r.steps[i - 1]);
    }
  }

  lemma OnlyGrows(l: Ledger, n: Ledger)
    requires LedgerContinues(l, n)
    ensures l.received <= n.received && l.nearFees <= n.nearFees && InCirculation(l) <= n.received
  {
  }

  lemma {:induction false} NoneLostIsZero(xs: seq<Transfer>)
    requires NoneLost(xs)
    ensures Total(xs, WithFate(Lost)) == 0
  {
    if xs != [] {
      NoneLostIsZero(xs[..|xs| - 1]);
    }
  }

  /** In particular when everything received in the whole run fits 128 bits: then the lost term of conservation is zero. */
  lemma NothingIsLostWithin128Bits(r: Run, i: nat)
    requires Valid(r) && i <= |r.steps|
    requires TotalKept(r, i) <= U128_MAX && r.states[i].ledger.nearFees <= U128_MAX
    ensures NoneLost(r.states[i].ledger.transfers)
    ensures Total(r.states[i].ledger.transfers, WithFate(Lost)) == 0
  {
    hide LedgerContinues, Keeps, FeesInv, LedgerInv;
    ReceivedIsKept(r, i);
    forall k | 0 <= k < i
      ensures InCirculation(r.states[k].ledger) <= U128_MAX && r.states[k].ledger.nearFees <= U128_MAX
    {
      RunContinues(r, k, i);
      OnlyGrows(r.states[k].ledger, r.states[i].ledger);
    }
    NothingIsLost(r, i);
    NoneLostIsZero(r.states[i].ledger.transfers);
  }

  /** Step `i` starts a refund of the ticket. */
  ghost predicate RefundStarts(r: Run, i: nat, id: Id) {
    && i < |r.steps| && i < |r.states|
    && r.steps[i].op.Trading? && r.steps[i].op.deal.Refunding? && r.steps[i].op.deal.id == id
    && Apply(r.states[i], r.steps[i].now, r.steps[i].caller, r.steps[i].op).Some?
  }

  /**
   A refund that fails later, after any calls in between, gives the ticket back the exact status
   it had and puts exactly its gross amount back into escrow.
   */
  lemma FailedRefundUndoesRefund(r: Run, i: nat, j: nat, id: Id)
    requires Valid(r) && RefundStarts(r, i, id) && i < j < |r.steps|
    requires r.steps[j].op == Trading(Resolution(|r.states[i].ledger.transfers|, false))
    requires var x := r.states[j].ledger; |r.states[i].ledger.transfers| < |x.transfers| && x.transfers[|r.states[i].ledger.transfers|].fate.Pending?
    requires InCirculation(r.states[j].ledger) <= U128_MAX && r.states[j].ledger.nearFees <= U128_MAX
    ensures id in r.states[i].ledger.tickets && id in r.states[j + 1].ledger.tickets
    ensures var t, n := r.states[i].ledger.tickets[id], r.states[j + 1].ledger.tickets[id];
            && InEscrow(t) && n.status == t.status && n.gross == t.gross
            && r.states[j + 1].ledger.escrow == r.states[j].ledger.escrow + t.gross
            && r.states[i].ledger.escrow == r.states[i + 1].ledger.escrow + t.gross
  {
    var at := |r.states[i].ledger.transfers|;
    var l := r.states[j].ledger;
    assert r.states[i + 1] == Next(r.states[i], r.steps[i]);
    assert r.states[j + 1] == Next(r.states[j], r.steps[j]);
    assert TransferContinues(r.states[i + 1].ledger.transfers[at], l.transfers[at]) && TicketContinues(r.states[i + 1].ledger.tickets[id], l.tickets[id])
    by { RunContinues(r, i + 1, j); }
    assert Restore(l, l.transfers[at]).Some? by {
      LedgerIsSound(r, j);
      CallbacksRestore(l, at);
    }
  }

  // ---------------------------------------------------------------- release never fails

  /** Settling moves money inside the contract, so nothing can overflow while everything in circulation fits. */
  lemma SettleSucceeds(l: Ledger, id: Id)
    requires BooksInv(l) && id in l.tickets && InEscrow(l.tickets[id]) && Splits(l.tickets[id])
    requires InCirculation(l) <= U128_MAX
    ensures Settle(l, id).Some?
    ensures InCirculation(Settle(l, id).value) == InCirculation(l)
  {
    hide AllSettled;
    var t := l.tickets[id];
    EscrowCoversTicket(l, id);
    OutgoingHasFates(l.transfers);
    if t.creator in l.creators {
      SumBounds<AccountId, nat>(l.creators, Itself(), t.creator);
    }
  }

  lemma {:induction false} ReleaseSucceeds(l: Ledger, c: Catalog, now: nat, ids: seq<Id>)
    requires LedgerInv(l, c.publications, now) && InCirculation(l) <= U128_MAX
    ensures ReleaseAll(l, c, now, ids).Some?
    ensures InCirculation(ReleaseAll(l, c, now, ids).value) == InCirculation(l)
  {
    hide RefundsInv, CardsInv;
    if ids != [] {
      var rest, last := ids[..|ids| - 1], ids[|ids| - 1];
      ReleaseSucceeds(l, c, now, rest);
      ReleaseKeepsInv(l, c, now, rest);
      var m := ReleaseAll(l, c, now, rest).value;
      if last in m.tickets {
        assert TicketOk(m.tickets[last], c.publications, now);
        if ReleaseOpen(m.tickets[last], c, now) {
          SettleSucceeds(m, last);
        }
      }
    }
  }

  /**
   In every reachable state any batch of names, known or unknown, eligible or not, repeated or
   not, goes through: no ticket can block the release of another.
   */
  lemma ReleaseIsNeverBlocked(r: Run, i: nat, now: nat, ids: seq<Id>)
    requires Valid(r) && i <= |r.steps| && Time(r, i) <= now
    requires InCirculation(r.states[i].ledger) <= U128_MAX && 1 <= |ids| <= MAX_RELEASE_BATCH
    ensures Release(r.states[i].ledger, r.states[i].catalog, now, ids, true).Some?
  {
    hide Inv, LedgerInv, InCirculation;
    RunsKeepInv(r, i);
    LedgerInvLater(r.states[i], Time(r, i), now);
    ReleaseSucceeds(r.states[i].ledger, r.states[i].catalog, now, ids);
  }
}
