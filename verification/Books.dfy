/**
 The market's books. Every party's balance plus what was already sent to it equals what the
 tickets say it is due, and everything received is owed, in flight or paid out.
 */
module Books {
  import opened Common
  import opened Sums
  import opened Governance
  import opened Ledger

  /** Everyone with a claim: tickets in escrow, the tax office, the platform, a creator, refunded buyers. */
  datatype Party = Escrow | TaxOffice | PlatformOwner | Creator(account: AccountId) | Buyers

  /** What a ticket owes a party in its present state. */
  function Share(t: Ticket, p: Party): nat {
    match p
    case Escrow => if InEscrow(t) then t.gross else 0
    case TaxOffice => if t.status.Released? then t.split.vat else 0
    case PlatformOwner => if t.status.Released? then t.split.platform else 0
    case Creator(a) => if t.status.Released? && t.creator == a then t.split.creator else 0
    case Buyers => if t.status.Refunded? then t.gross else 0
  }

  /** What a transfer has sent, or is sending, to a party. */
  function Sent(x: Transfer, p: Party): nat {
    if x.fate.Returned? then 0
    else match x.purpose
      case CreatorPayout(a) => if p == Creator(a) then x.amount else 0
      case PlatformPayout => if p.PlatformOwner? then x.amount else 0
      case TaxPayout => if p.TaxOffice? then x.amount else 0
      case TicketRefund(_, _) => if p.Buyers? then x.amount else 0
      case NearPayout => 0
  }

  /** The balance the contract keeps for a party. */
  function Balance(l: Ledger, p: Party): nat {
    match p
    case Escrow => l.escrow
    case TaxOffice => l.tax
    case PlatformOwner => l.platform
    case Creator(a) => Lookup(l.creators, a)
    case Buyers => 0
  }

  function ShareOf(p: Party): Ticket -> nat { (t: Ticket) => Share(t, p) }

  function SentTo(p: Party): Transfer -> nat { (x: Transfer) => Sent(x, p) }

  function GrossOf(): Ticket -> nat { (t: Ticket) => t.gross }

  function Itself(): nat -> nat { (n: nat) => n }

  /** USDC that left the balances and did not come back. */
  function Outgoing(): Transfer -> nat {
    (x: Transfer) => if x.purpose.NearPayout? || x.fate.Returned? then 0 else x.amount
  }

  /** USDC transfers with one particular fate. */
  function WithFate(fate: Fate): Transfer -> nat {
    (x: Transfer) => if !x.purpose.NearPayout? && x.fate == fate then x.amount else 0
  }

  function NearOutgoing(): Transfer -> nat {
    (x: Transfer) => if x.purpose.NearPayout? && !x.fate.Returned? then x.amount else 0
  }

  /** Each party has, or was sent, exactly its due; the platform's due includes the job fees. */
  ghost predicate Settled(l: Ledger, p: Party) {
    Balance(l, p) + Total(l.transfers, SentTo(p)) == Sum(l.tickets, ShareOf(p)) + (if p.PlatformOwner? then l.fees else 0)
  }

  ghost function Owed(l: Ledger): nat {
    l.escrow + l.tax + l.platform + Sum(l.creators, Itself())
  }

  /** Everything received is still owed or went out. */
  ghost predicate Conserved(l: Ledger) {
    && l.received == Owed(l) + Total(l.transfers, Outgoing())
    && l.received == Sum(l.tickets, GrossOf()) + l.fees
    && l.nearFees == l.platformNear + Total(l.transfers, NearOutgoing())
  }

  ghost predicate AllSettled(l: Ledger) {
    forall p {:trigger Settled(l, p)} :: Settled(l, p)
  }

  ghost predicate BooksInv(l: Ledger) {
    AllSettled(l) && Conserved(l)
  }

  // ---------------------------------------------------------------- single moves

  /** Writing a ticket whose shares do not change moves no money. */
  lemma NeutralWriteKeepsBooks(l: Ledger, id: Id, t: Ticket)
    requires BooksInv(l) && id in l.tickets
    requires forall p :: Share(t, p) == Share(l.tickets[id], p)
    requires t.gross == l.tickets[id].gross
    ensures BooksInv(l.(tickets := l.tickets[id := t]))
  {
    var n := l.(tickets := l.tickets[id := t]);
    SumUpdate(l.tickets, GrossOf(), id, t);
    forall p
      ensures Settled(n, p)
    {
      assert Settled(l, p);
      SumUpdate(l.tickets, ShareOf(p), id, t);
    }
  }

  /** A new ticket brings its gross amount into escrow, or nothing at all. */
  lemma NewTicketKeepsBooks(l: Ledger, id: Id, t: Ticket)
    requires BooksInv(l) && id !in l.tickets
    requires t.status.Purchased? && (t.rail.Card? ==> t.gross == 0)
    ensures BooksInv(l.(tickets := l.tickets[id := t], escrow := l.escrow + t.gross, received := l.received + t.gross))
  {
    var n := l.(tickets := l.tickets[id := t], escrow := l.escrow + t.gross, received := l.received + t.gross);
    SumUpdate(l.tickets, GrossOf(), id, t);
    forall p
      ensures Settled(n, p)
    {
      assert Settled(l, p);
      SumUpdate(l.tickets, ShareOf(p), id, t);
    }
  }

  ghost predicate NoTransfersFor(xs: seq<Transfer>, p: Party) {
    Total(xs, SentTo(p)) == 0
  }

  lemma {:induction false} EscrowIsNeverSent(xs: seq<Transfer>)
    ensures NoTransfersFor(xs, Escrow)
  {
    if xs != [] {
      EscrowIsNeverSent(xs[..|xs| - 1]);
    }
  }

  /** The ticket's share of the escrow is at most the escrow: the underflow checks cannot fire. */
  lemma EscrowCoversTicket(l: Ledger, id: Id)
    requires BooksInv(l) && id in l.tickets && InEscrow(l.tickets[id])
    ensures l.tickets[id].gross <= l.escrow
  {
    assert Settled(l, Escrow);
    SumBounds(l.tickets, ShareOf(Escrow), id);
    assert NoTransfersFor(l.transfers, Escrow) by { EscrowIsNeverSent(l.transfers); }
  }

  /** A started transfer counts for its party from the moment it is started. */
  lemma TransferAppended(xs: seq<Transfer>, x: Transfer)
    ensures forall p {:trigger SentTo(p)} :: Total(xs + [x], SentTo(p)) == Total(xs, SentTo(p)) + Sent(x, p)
    ensures Total(xs + [x], Outgoing()) == Total(xs, Outgoing()) + Outgoing()(x)
    ensures Total(xs + [x], NearOutgoing()) == Total(xs, NearOutgoing()) + NearOutgoing()(x)
  {
    forall p {
      TotalAppend(xs, x, SentTo(p));
    }
    TotalAppend(xs, x, Outgoing());
    TotalAppend(xs, x, NearOutgoing());
  }

  lemma TransferRewritten(xs: seq<Transfer>, i: nat, x: Transfer)
    requires i < |xs|
    ensures forall p {:trigger SentTo(p)} :: Total(xs[i := x], SentTo(p)) + Sent(xs[i], p) == Total(xs, SentTo(p)) + Sent(x, p)
    ensures Total(xs[i := x], Outgoing()) + Outgoing()(xs[i]) == Total(xs, Outgoing()) + Outgoing()(x)
    ensures Total(xs[i := x], NearOutgoing()) + NearOutgoing()(xs[i]) == Total(xs, NearOutgoing()) + NearOutgoing()(x)
  {
    forall p {
      TotalUpdate(xs, i, x, SentTo(p));
    }
    TotalUpdate(xs, i, x, Outgoing());
    TotalUpdate(xs, i, x, NearOutgoing());
  }

  lemma TicketRewritten(tickets: map<Id, Ticket>, id: Id, t: Ticket)
    requires id in tickets && t.gross == tickets[id].gross
    ensures forall p {:trigger ShareOf(p)} ::
              Sum(tickets[id := t], ShareOf(p)) + Share(tickets[id], p) == Sum(tickets, ShareOf(p)) + Share(t, p)
    ensures Sum(tickets[id := t], GrossOf()) == Sum(tickets, GrossOf())
  {
    forall p {
      SumUpdate(tickets, ShareOf(p), id, t);
    }
    SumUpdate(tickets, GrossOf(), id, t);
  }

  // ---------------------------------------------------------------- the contract's moves

  lemma RefundSettles(l: Ledger, id: Id, to: AccountId, p: Party)
    requires Settled(l, p) && id in l.tickets && InEscrow(l.tickets[id]) && l.tickets[id].gross <= l.escrow
    ensures Settled(StartRefund(l, id, to), p)
  {
    var t := l.tickets[id];
    SumUpdate(l.tickets, ShareOf(p), id, t.(status := Refunded));
    TotalAppend(l.transfers, Transfer(TicketRefund(id, t.status), to, t.gross, Pending), SentTo(p));
  }

  lemma RefundConserves(l: Ledger, id: Id, to: AccountId)
    requires Conserved(l) && id in l.tickets && l.tickets[id].gross <= l.escrow
    ensures Conserved(StartRefund(l, id, to))
  {
    var t := l.tickets[id];
    TicketRewritten(l.tickets, id, t.(status := Refunded));
    TransferAppended(l.transfers, Transfer(TicketRefund(id, t.status), to, t.gross, Pending));
  }

  lemma RefundKeepsBooks(l: Ledger, id: Id, to: AccountId)
    requires BooksInv(l) && id in l.tickets && InEscrow(l.tickets[id])
    ensures l.tickets[id].gross <= l.escrow && BooksInv(StartRefund(l, id, to))
  {
    EscrowCoversTicket(l, id);
    forall p
      ensures Settled(StartRefund(l, id, to), p)
    {
      RefundSettles(l, id, to, p);
    }
    RefundConserves(l, id, to);
  }

  predicate Splits(t: Ticket) {
    t.split.vat + t.split.platform + t.split.creator == t.gross
  }

  lemma SettleSettles(l: Ledger, id: Id, p: Party)
    requires Settled(l, p) && id in l.tickets && InEscrow(l.tickets[id]) && Settle(l, id).Some?
    ensures Settled(Settle(l, id).value, p)
  {
    SumUpdate(l.tickets, ShareOf(p), id, l.tickets[id].(status := Released));
  }

  lemma SettleConserves(l: Ledger, id: Id)
    requires Conserved(l) && id in l.tickets && Splits(l.tickets[id]) && Settle(l, id).Some?
    ensures Conserved(Settle(l, id).value)
  {
    var t := l.tickets[id];
    TicketRewritten(l.tickets, id, t.(status := Released));
    SumUpdate<AccountId, nat>(l.creators, Itself(), t.creator, Lookup(l.creators, t.creator) + t.split.creator);
  }

  /** Release hands the gross amount to the three parties, each its recorded share. */
  lemma SettleKeepsBooks(l: Ledger, id: Id)
    requires BooksInv(l) && id in l.tickets && InEscrow(l.tickets[id]) && Splits(l.tickets[id])
    requires Settle(l, id).Some?
    ensures BooksInv(Settle(l, id).value)
  {
    forall p
      ensures Settled(Settle(l, id).value, p)
    {
      SettleSettles(l, id, p);
    }
    SettleConserves(l, id);
  }

  lemma PlatformWithdrawalKeepsBooks(l: Ledger, g: Gov, caller: AccountId)
    requires BooksInv(l) && WithdrawPlatform(l, g, caller).Some?
    ensures BooksInv(WithdrawPlatform(l, g, caller).value)
  {
    var n := WithdrawPlatform(l, g, caller).value;
    TransferAppended(l.transfers, Transfer(PlatformPayout, g.roles.platform, l.platform, Pending));
    forall p
      ensures Settled(n, p)
    {
      assert Settled(l, p);
      assert Total(n.transfers, SentTo(p)) == Total(l.transfers, SentTo(p)) + Sent(n.transfers[|l.transfers|], p);
    }
  }

  lemma TaxWithdrawalKeepsBooks(l: Ledger, g: Gov, caller: AccountId)
    requires BooksInv(l) && WithdrawTax(l, g, caller).Some?
    ensures BooksInv(WithdrawTax(l, g, caller).value)
  {
    var n := WithdrawTax(l, g, caller).value;
    TransferAppended(l.transfers, Transfer(TaxPayout, g.roles.tax, l.tax, Pending));
    forall p
      ensures Settled(n, p)
    {
      assert Settled(l, p);
      assert Total(n.transfers, SentTo(p)) == Total(l.transfers, SentTo(p)) + Sent(n.transfers[|l.transfers|], p);
    }
  }

  lemma CreatorWithdrawalKeepsBooks(l: Ledger, caller: AccountId)
    requires BooksInv(l) && WithdrawCreator(l, caller).Some?
    ensures BooksInv(WithdrawCreator(l, caller).value)
  {
    var n := WithdrawCreator(l, caller).value;
    var x := Transfer(CreatorPayout(caller), caller, Lookup(l.creators, caller), Pending);
    TransferAppended(l.transfers, x);
    SumUpdate<AccountId, nat>(l.creators, Itself(), caller, 0);
    forall p
      ensures Settled(n, p)
    {
      assert Settled(l, p);
      assert Total(n.transfers, SentTo(p)) == Total(l.transfers, SentTo(p)) + Sent(n.transfers[|l.transfers|], p);
    }
  }

  lemma NearWithdrawalKeepsBooks(l: Ledger, g: Gov, caller: AccountId, amount: nat, liquid: nat)
    requires BooksInv(l) && WithdrawNear(l, g, caller, amount, liquid).Some?
    ensures BooksInv(WithdrawNear(l, g, caller, amount, liquid).value)
  {
    var n := WithdrawNear(l, g, caller, amount, liquid).value;
    TransferAppended(l.transfers, Transfer(NearPayout, g.roles.platform, amount, Pending));
    forall p
      ensures Settled(n, p)
    {
      assert Settled(l, p);
      assert Total(n.transfers, SentTo(p)) == Total(l.transfers, SentTo(p)) + Sent(n.transfers[|l.transfers|], p);
    }
  }

  lemma FeesKeepBooks(l: Ledger, amount: nat)
    requires BooksInv(l)
    ensures CreditFee(l, amount).Some? ==> BooksInv(CreditFee(l, amount).value)
    ensures CreditNearFee(l, amount).Some? ==> BooksInv(CreditNearFee(l, amount).value)
  {
    forall p
      ensures CreditFee(l, amount).Some? ==> Settled(CreditFee(l, amount).value, p)
      ensures CreditNearFee(l, amount).Some? ==> Settled(CreditNearFee(l, amount).value, p)
    {
      assert Settled(l, p);
    }
  }

  // ---------------------------------------------------------------- callbacks

  /** A refund transfer belongs to a refunded ticket, carries its whole gross amount, and knows its way back. */
  predicate RefundFits(tickets: map<Id, Ticket>, x: Transfer) {
    x.purpose.TicketRefund? ==>
      && x.purpose.ticketId in tickets
      && var t := tickets[x.purpose.ticketId];
      && t.rail.Crypto? && t.status.Refunded? && t.gross == x.amount
      && (x.purpose.restore.Purchased? || x.purpose.restore.WatchedInEscrow?)
  }

  /** Rewriting a pending transfer as paid or lost leaves every party's total as it was. */
  lemma FateSettles(l: Ledger, i: nat, fate: Fate, p: Party)
    requires Settled(l, p) && i < |l.transfers| && l.transfers[i].fate.Pending? && (fate.Paid? || fate.Lost?)
    ensures Settled(l.(transfers := l.transfers[i := l.transfers[i].(fate := fate)]), p)
  {
    TotalUpdate(l.transfers, i, l.transfers[i].(fate := fate), SentTo(p));
  }

  lemma CompletionSettles(l: Ledger, i: nat, p: Party)
    requires Settled(l, p) && Resolve(l, i, true).Some?
    ensures Settled(Resolve(l, i, true).value, p)
  {
    var x := l.transfers[i];
    FateSettles(l, i, Paid, p);
    if x.purpose.TicketRefund? && x.purpose.ticketId in l.tickets {
      SumUpdate(l.tickets, ShareOf(p), x.purpose.ticketId, l.tickets[x.purpose.ticketId].(devices := []));
    }
  }

  /** Putting an amount back into one party's balance, with its transfer marked as returned. */
  lemma CreditSettles(l: Ledger, n: Ledger, i: nat, p: Party)
    requires Settled(l, p) && i < |l.transfers| && l.transfers[i].fate.Pending?
    requires n.tickets == l.tickets && n.fees == l.fees && n.transfers == l.transfers[i := l.transfers[i].(fate := Returned)]
    requires Balance(n, p) == Balance(l, p) + Sent(l.transfers[i], p)
    ensures Settled(n, p)
  {
    TotalUpdate(l.transfers, i, l.transfers[i].(fate := Returned), SentTo(p));
  }

  lemma RefundRestoreSettles(l: Ledger, i: nat, p: Party)
    requires Settled(l, p) && Resolve(l, i, false).Some? && RefundFits(l.tickets, l.transfers[i])
    requires l.transfers[i].purpose.TicketRefund? && Restore(l, l.transfers[i]).Some?
    ensures Settled(Resolve(l, i, false).value, p)
  {
    var x := l.transfers[i];
    var id := x.purpose.ticketId;
    TotalUpdate(l.transfers, i, x.(fate := Returned), SentTo(p));
    SumUpdate(l.tickets, ShareOf(p), id, l.tickets[id].(status := x.purpose.restore));
  }

  lemma RestoreSettles(l: Ledger, i: nat, p: Party)
    requires Settled(l, p) && Resolve(l, i, false).Some? && RefundFits(l.tickets, l.transfers[i])
    requires Restore(l, l.transfers[i]).Some?
    ensures Settled(Resolve(l, i, false).value, p)
  {
    var n := Resolve(l, i, false).value;
    match l.transfers[i].purpose
    case TicketRefund(_, _) => RefundRestoreSettles(l, i, p);
    case CreatorPayout(a) => CreditSettles(l, n, i, p);
    case PlatformPayout => CreditSettles(l, n, i, p);
    case TaxPayout => CreditSettles(l, n, i, p);
    case NearPayout => CreditSettles(l, n, i, p);
  }

  lemma CompletionConserves(l: Ledger, i: nat)
    requires Conserved(l) && Resolve(l, i, true).Some?
    ensures Conserved(Resolve(l, i, true).value)
  {
    var x := l.transfers[i];
    TransferRewritten(l.transfers, i, x.(fate := Paid));
    if x.purpose.TicketRefund? && x.purpose.ticketId in l.tickets {
      TicketRewritten(l.tickets, x.purpose.ticketId, l.tickets[x.purpose.ticketId].(devices := []));
    }
  }

  lemma ReturnConserves(l: Ledger, n: Ledger, i: nat)
    requires Conserved(l) && i < |l.transfers| && l.transfers[i].fate.Pending?
    requires n.received == l.received && n.fees == l.fees && n.nearFees == l.nearFees
    requires Owed(n) == Owed(l) + Outgoing()(l.transfers[i]) && n.platformNear == l.platformNear + NearOutgoing()(l.transfers[i])
    requires Sum(n.tickets, GrossOf()) == Sum(l.tickets, GrossOf())
    ensures Conserved(n.(transfers := l.transfers[i := l.transfers[i].(fate := Returned)]))
  {
    TransferRewritten(l.transfers, i, l.transfers[i].(fate := Returned));
  }

  /** A restored amount is owed again, in the same currency. */
  lemma RestoreOwes(l: Ledger, x: Transfer)
    requires Restore(l, x).Some? && x.fate.Pending?
    ensures var n := Restore(l, x).value;
            && Owed(n) == Owed(l) + Outgoing()(x) && n.platformNear == l.platformNear + NearOutgoing()(x)
            && Sum(n.tickets, GrossOf()) == Sum(l.tickets, GrossOf())
  {
    match x.purpose
    case CreatorPayout(a) => SumUpdate<AccountId, nat>(l.creators, Itself(), a, Lookup(l.creators, a) + x.amount);
    case TicketRefund(id, status) => TicketRewritten(l.tickets, id, l.tickets[id].(status := status));
    case PlatformPayout =>
    case TaxPayout =>
    case NearPayout =>
  }

  lemma RestoreConserves(l: Ledger, i: nat)
    requires Conserved(l) && Resolve(l, i, false).Some?
    ensures Conserved(Resolve(l, i, false).value)
  {
    var x := l.transfers[i];
    if Restore(l, x).Some? {
      RestoreOwes(l, x);
      ReturnConserves(l, Restore(l, x).value, i);
    } else {
      TransferRewritten(l.transfers, i, x.(fate := Lost));
    }
  }

  lemma ResolveConserves(l: Ledger, i: nat, success: bool)
    requires Conserved(l) && Resolve(l, i, success).Some?
    ensures Conserved(Resolve(l, i, success).value)
  {
    if success {
      CompletionConserves(l, i);
    } else {
      RestoreConserves(l, i);
    }
  }

  lemma ResolveKeepsBooks(l: Ledger, i: nat, success: bool)
    requires BooksInv(l) && Resolve(l, i, success).Some? && RefundFits(l.tickets, l.transfers[i])
    ensures BooksInv(Resolve(l, i, success).value)
  {
    forall p
      ensures Settled(Resolve(l, i, success).value, p)
    {
      assert Settled(l, p);
      if success {
        CompletionSettles(l, i, p);
      } else if Restore(l, l.transfers[i]).Some? {
        RestoreSettles(l, i, p);
      } else {
        FateSettles(l, i, Lost, p);
      }
    }
    ResolveConserves(l, i, success);
  }

  // ---------------------------------------------------------------- no liability is ever lost

  /** USDC that is in the contract or in flight: received, and not known to be paid out. */
  ghost function InCirculation(l: Ledger): int {
    l.received - Total(l.transfers, WithFate(Paid))
  }

  lemma {:induction false} OutgoingHasFates(xs: seq<Transfer>)
    ensures Total(xs, Outgoing()) == Total(xs, WithFate(Pending)) + Total(xs, WithFate(Paid)) + Total(xs, WithFate(Lost))
  {
    if xs != [] {
      OutgoingHasFates(xs[..|xs| - 1]);
    }
  }

  /** Received equals owed plus in flight plus paid out, plus whatever was lost. */
  lemma ConservationByFate(l: Ledger)
    requires Conserved(l)
    ensures l.received == l.escrow + l.tax + l.platform + Sum(l.creators, Itself())
                          + Total(l.transfers, WithFate(Pending)) + Total(l.transfers, WithFate(Paid)) + Total(l.transfers, WithFate(Lost))
  {
    OutgoingHasFates(l.transfers);
  }

  /**
   No callback can overflow while the tokens in circulation fit 128 bits, whatever happened
   between the transfer and its callback.
   */
  lemma CallbacksRestore(l: Ledger, i: nat)
    requires Conserved(l) && i < |l.transfers| && l.transfers[i].fate.Pending? && RefundFits(l.tickets, l.transfers[i])
    requires InCirculation(l) <= U128_MAX && l.nearFees <= U128_MAX
    ensures Restore(l, l.transfers[i]).Some?
  {
    var x := l.transfers[i];
    OutgoingHasFates(l.transfers);
    TotalBounds(l.transfers, i, WithFate(Pending));
    TotalBounds(l.transfers, i, NearOutgoing());
    if x.purpose.CreatorPayout? && x.purpose.creator in l.creators {
      SumBounds<AccountId, nat>(l.creators, Itself(), x.purpose.creator);
    }
  }
}
