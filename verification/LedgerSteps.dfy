/** Every ledger call keeps the books, the tickets, the refunds and the card references consistent. */
module LedgerSteps {
  import opened Common
  import opened Money
  import opened Governance
  import opened Catalog
  import opened PublicationIndex
  import opened Ledger
  import opened Devices
  import opened Books
  import opened TicketRules

  ghost predicate LedgerInv(l: Ledger, publications: map<Id, Publication>, now: nat) {
    && BooksInv(l)
    && TicketsInv(l.tickets, publications, now)
    && RefundsInv(l.tickets, l.transfers)
    && CardsInv(l.tickets, l.cardReferences)
  }

  /** A ticket keeps its price, its parties and its place in the books. */
  predicate SameMoney(t: Ticket, u: Ticket) {
    && t.gross == u.gross && t.split == u.split && t.creator == u.creator && t.rail == u.rail && t.card == u.card
    && (InEscrow(t) <==> InEscrow(u))
    && (t.status.Released? <==> u.status.Released?)
    && (t.status.Refunded? <==> u.status.Refunded?)
  }

  lemma NeutralWriteKeepsInv(l: Ledger, publications: map<Id, Publication>, now: nat, id: Id, t: Ticket)
    requires LedgerInv(l, publications, now) && id in l.tickets
    requires SameMoney(l.tickets[id], t) && TicketOk(t, publications, now)
    ensures LedgerInv(l.(tickets := l.tickets[id := t]), publications, now)
  {
    NeutralWriteKeepsBooks(l, id, t);
    TicketsWrite(l.tickets, publications, now, id, t);
    RefundsStay(l.tickets, l.transfers, id, t);
    CardsStay(l.tickets, l.cardReferences, id, t);
  }

  lemma NewTicketIsOk(t: Ticket, publications: map<Id, Publication>, now: nat, device: Device)
    requires t.publicationId in publications && publications[t.publicationId].creator == t.creator
    requires t.purchasedAt == now && now + ESCROW_MS <= U64_MAX && t.deviceEpoch == 0
    requires t.devices == [device] && device.authorizedAt == now && device.expiresAt == now + DEVICE_LIFETIME_MS
    requires t.status.Purchased?
    requires if t.rail.Crypto? then t.card.None? && Splits(t) else t.card.Some? && t.gross == 0 && t.split == Split(0, 0, 0)
    ensures TicketOk(t, publications, now)
  {
  }

  lemma BuyKeepsInv(l: Ledger, c: Catalog, g: Gov, now: nat, amount: nat, p: Purchase, runwayOk: bool)
    requires LedgerInv(l, c.publications, now)
    requires var sale := Buy(l, c, g, now, amount, p, runwayOk); sale.Some? && sale.value.Sold?
    ensures LedgerInv(Buy(l, c, g, now, amount, p, runwayOk).value.ledger, c.publications, now)
  {
    var n := Buy(l, c, g, now, amount, p, runwayOk).value.ledger;
    var t := n.tickets[p.ticketId];
    SplitIsExact(amount, p.vat);
    NewTicketIsOk(t, c.publications, now, NewDevice(p.deviceKey, p.certificate, now));
    NewTicketKeepsBooks(l, p.ticketId, t);
    TicketsWrite(l.tickets, c.publications, now, p.ticketId, t);
    RefundsStay(l.tickets, l.transfers, p.ticketId, t);
    CardsStay(l.tickets, l.cardReferences, p.ticketId, t);
  }

  lemma BooksIgnoreCards(l: Ledger, references: set<string>)
    requires BooksInv(l)
    ensures BooksInv(l.(cardReferences := references))
  {
    forall p
      ensures Settled(l.(cardReferences := references), p)
    {
      assert Settled(l, p);
    }
  }

  lemma IssueKeepsInv(l: Ledger, c: Catalog, g: Gov, now: nat, caller: AccountId, o: CardOrder, deposit: nat, headroomOk: bool)
    requires LedgerInv(l, c.publications, now)
    requires IssueCard(l, c, g, now, caller, o, deposit, headroomOk).Some?
    ensures LedgerInv(IssueCard(l, c, g, now, caller, o, deposit, headroomOk).value, c.publications, now)
  {
    var n := IssueCard(l, c, g, now, caller, o, deposit, headroomOk).value;
    var t := n.tickets[o.ticketId];
    NewTicketIsOk(t, c.publications, now, NewDevice(o.deviceKey, o.certificate, now));
    NewTicketKeepsBooks(l, o.ticketId, t);
    var m := l.(tickets := l.tickets[o.ticketId := t], escrow := l.escrow + t.gross, received := l.received + t.gross);
    assert n == m.(cardReferences := n.cardReferences);
    BooksIgnoreCards(m, n.cardReferences);
    TicketsWrite(l.tickets, c.publications, now, o.ticketId, t);
    RefundsStay(l.tickets, l.transfers, o.ticketId, t);
    CardAdded(l.tickets, l.cardReferences, o.ticketId, t);
  }

  lemma RefundKeepsInv(l: Ledger, publications: map<Id, Publication>, now: nat, id: Id, to: AccountId)
    requires LedgerInv(l, publications, now) && id in l.tickets && InEscrow(l.tickets[id])
    ensures l.tickets[id].gross <= l.escrow && LedgerInv(StartRefund(l, id, to), publications, now)
  {
    RefundKeepsBooks(l, id, to);
    var t := l.tickets[id].(status := Refunded);
    assert TicketOk(l.tickets[id], publications, now);
    TicketsWrite(l.tickets, publications, now, id, t);
    StartKeepsRefunds(l, id, to);
    CardsStay(l.tickets, l.cardReferences, id, t);
  }

  lemma SettleKeepsInv(l: Ledger, publications: map<Id, Publication>, now: nat, id: Id)
    requires LedgerInv(l, publications, now) && id in l.tickets && InEscrow(l.tickets[id])
    requires Settle(l, id).Some?
    ensures LedgerInv(Settle(l, id).value, publications, now)
  {
    var t := l.tickets[id].(status := Released);
    assert TicketOk(l.tickets[id], publications, now);
    SettleKeepsBooks(l, id);
    TicketsWrite(l.tickets, publications, now, id, t);
    RefundsStay(l.tickets, l.transfers, id, t);
    CardsStay(l.tickets, l.cardReferences, id, t);
  }

  lemma {:induction false} ReleaseKeepsInv(l: Ledger, c: Catalog, now: nat, ids: seq<Id>)
    requires LedgerInv(l, c.publications, now) && ReleaseAll(l, c, now, ids).Some?
    ensures LedgerInv(ReleaseAll(l, c, now, ids).value, c.publications, now)
  {
    if ids != [] {
      var rest, last := ids[..|ids| - 1], ids[|ids| - 1];
      ReleaseKeepsInv(l, c, now, rest);
      var m := ReleaseAll(l, c, now, rest).value;
      if last in m.tickets && ReleaseOpen(m.tickets[last], c, now) {
        SettleKeepsInv(m, c.publications, now, last);
      }
    }
  }

  /** Device changes touch one ticket's devices and epoch only. */
  lemma DeviceCallKeepsInv(l: Ledger, c: Catalog, g: Gov, now: nat, caller: AccountId, op: LedgerOp)
    requires op.DeviceAddition? || op.DeviceRevocation? || op.PlatformRevocation?
    requires LedgerInv(l, c.publications, now)
    requires ApplyLedger(l, c, g, now, caller, op).Some?
    ensures LedgerInv(ApplyLedger(l, c, g, now, caller, op).value, c.publications, now)
  {
    var t := l.tickets[op.id];
    var u := ApplyLedger(l, c, g, now, caller, op).value.tickets[op.id];
    assert TicketOk(t, c.publications, now);
    if op.DeviceAddition? {
      AdditionKeepsDevices(t, op.key, op.certificate, now);
    } else {
      RevocationKeepsDevices(t, op.key, now);
    }
    assert u == t.(devices := u.devices, deviceEpoch := u.deviceEpoch);
    NeutralWriteKeepsInv(l, c.publications, now, op.id, u);
  }

  /** Watching and voiding touch one ticket and no money. */
  lemma StatusCallKeepsInv(l: Ledger, c: Catalog, g: Gov, now: nat, caller: AccountId, op: LedgerOp)
    requires op.Watching? || op.CardVoiding?
    requires LedgerInv(l, c.publications, now)
    requires ApplyLedger(l, c, g, now, caller, op).Some?
    ensures LedgerInv(ApplyLedger(l, c, g, now, caller, op).value, c.publications, now)
  {
    var n := ApplyLedger(l, c, g, now, caller, op).value;
    if n != l {
      assert TicketOk(l.tickets[op.id], c.publications, now);
      NeutralWriteKeepsInv(l, c.publications, now, op.id, n.tickets[op.id]);
    }
  }

  lemma PayoutKeepsInv(l: Ledger, c: Catalog, g: Gov, now: nat, caller: AccountId, op: LedgerOp)
    requires op.CreatorWithdrawal? || op.PlatformWithdrawal? || op.TaxWithdrawal? || op.NearWithdrawal?
    requires LedgerInv(l, c.publications, now)
    requires ApplyLedger(l, c, g, now, caller, op).Some?
    ensures LedgerInv(ApplyLedger(l, c, g, now, caller, op).value, c.publications, now)
  {
    var n := ApplyLedger(l, c, g, now, caller, op).value;
    PayoutAddsNoRefund(l.tickets, l.transfers, n.transfers[|l.transfers|]);
    match op
    case CreatorWithdrawal => CreatorWithdrawalKeepsBooks(l, caller);
    case PlatformWithdrawal => PlatformWithdrawalKeepsBooks(l, g, caller);
    case TaxWithdrawal => TaxWithdrawalKeepsBooks(l, g, caller);
    case NearWithdrawal(amount, liquid) => NearWithdrawalKeepsBooks(l, g, caller, amount, liquid);
  }

  lemma CompletedRefundKeepsInv(l: Ledger, publications: map<Id, Publication>, now: nat, i: nat)
    requires LedgerInv(l, publications, now) && Resolve(l, i, true).Some? && l.transfers[i].purpose.TicketRefund?
    ensures var n := Resolve(l, i, true).value;
            && TicketsInv(n.tickets, publications, now)
            && RefundsInv(n.tickets, n.transfers)
            && CardsInv(n.tickets, n.cardReferences)
  {
    var x := l.transfers[i];
    assert RefundFits(l.tickets, x);
    var id := x.purpose.ticketId;
    assert TicketOk(l.tickets[id], publications, now);
    var t := l.tickets[id].(devices := []);
    TicketsWrite(l.tickets, publications, now, id, t);
    CardsStay(l.tickets, l.cardReferences, id, t);
    OutcomeKeepsRefunds(l.tickets, l.transfers, i, Paid);
    RefundsStay(l.tickets, l.transfers[i := x.(fate := Paid)], id, t);
  }

  lemma ReturnedRefundKeepsInv(l: Ledger, publications: map<Id, Publication>, now: nat, i: nat)
    requires LedgerInv(l, publications, now) && Resolve(l, i, false).Some? && l.transfers[i].purpose.TicketRefund?
    ensures var n := Resolve(l, i, false).value;
            && TicketsInv(n.tickets, publications, now)
            && RefundsInv(n.tickets, n.transfers)
            && CardsInv(n.tickets, n.cardReferences)
  {
    var x := l.transfers[i];
    assert RefundFits(l.tickets, x);
    var id := x.purpose.ticketId;
    if Restore(l, x).Some? {
      assert TicketOk(l.tickets[id], publications, now);
      var t := l.tickets[id].(status := x.purpose.restore);
      TicketsWrite(l.tickets, publications, now, id, t);
      CardsStay(l.tickets, l.cardReferences, id, t);
      ReturnKeepsRefunds(l.tickets, l.transfers, i);
    } else {
      OutcomeKeepsRefunds(l.tickets, l.transfers, i, Lost);
    }
  }

  lemma ResolveKeepsInv(l: Ledger, publications: map<Id, Publication>, now: nat, i: nat, success: bool)
    requires LedgerInv(l, publications, now) && Resolve(l, i, success).Some?
    ensures LedgerInv(Resolve(l, i, success).value, publications, now)
  {
    var x := l.transfers[i];
    assert RefundFits(l.tickets, x);
    ResolveKeepsBooks(l, i, success);
    if !x.purpose.TicketRefund? {
      OutcomeKeepsRefunds(l.tickets, l.transfers, i, Resolve(l, i, success).value.transfers[i].fate);
    } else if success {
      CompletedRefundKeepsInv(l, publications, now, i);
    } else {
      ReturnedRefundKeepsInv(l, publications, now, i);
    }
  }

  /** Every successful ledger call, callbacks included, keeps the whole ledger consistent. */
  lemma LedgerStepKeepsInv(l: Ledger, c: Catalog, g: Gov, now: nat, caller: AccountId, op: LedgerOp)
    requires LedgerInv(l, c.publications, now)
    requires ApplyLedger(l, c, g, now, caller, op).Some?
    ensures LedgerInv(ApplyLedger(l, c, g, now, caller, op).value, c.publications, now)
  {
    match op
    case Buying(amount, purchase, runwayOk) =>
      if Buy(l, c, g, now, amount, purchase, runwayOk).value.Sold? {
        BuyKeepsInv(l, c, g, now, amount, purchase, runwayOk);
      }
    case Refunding(id, refundTo, expires, sigOk) => RefundKeepsInv(l, c.publications, now, id, refundTo);
    case Releasing(ids, runwayOk) => ReleaseKeepsInv(l, c, now, ids);
    case CardIssue(order, deposit, headroomOk) => IssueKeepsInv(l, c, g, now, caller, order, deposit, headroomOk);
    case Resolution(i, success) => ResolveKeepsInv(l, c.publications, now, i, success);
    case Watching(_) => StatusCallKeepsInv(l, c, g, now, caller, op);
    case DeviceAddition(_, _, _, _, _, _, _, _) => DeviceCallKeepsInv(l, c, g, now, caller, op);
    case DeviceRevocation(_, _, _, _, _, _) => DeviceCallKeepsInv(l, c, g, now, caller, op);
    case PlatformRevocation(_, _, _) => DeviceCallKeepsInv(l, c, g, now, caller, op);
    case CardVoiding(_, _) => StatusCallKeepsInv(l, c, g, now, caller, op);
    case CreatorWithdrawal => PayoutKeepsInv(l, c, g, now, caller, op);
    case PlatformWithdrawal => PayoutKeepsInv(l, c, g, now, caller, op);
    case TaxWithdrawal => PayoutKeepsInv(l, c, g, now, caller, op);
    case NearWithdrawal(_, _) => PayoutKeepsInv(l, c, g, now, caller, op);
  }

  /** Later, and with publications no more available than before, the ledger is as consistent as it was. */
  lemma LedgerAges(l: Ledger, before: map<Id, Publication>, after: map<Id, Publication>, now: nat, later: nat)
    requires LedgerInv(l, before, now) && Keeps(before, after) && now <= later
    ensures LedgerInv(l, after, later)
  {
    hide TicketsInv, BooksInv, RefundsInv, CardsInv, Keeps;
    TicketsAge(l.tickets, before, after, now, later);
  }

  lemma EmptyRules(tickets: map<Id, Ticket>, xs: seq<Transfer>, references: set<string>, now: nat)
    requires tickets == map[] && xs == [] && references == {}
    ensures TicketsInv(tickets, map[], now) && RefundsInv(tickets, xs) && CardsInv(tickets, references)
  {
  }

  lemma EmptyBooks(l: Ledger)
    requires l.tickets == map[] && l.creators == map[] && l.transfers == []
    requires l.escrow == l.tax == l.platform == l.platformNear == l.received == l.fees == l.nearFees == 0
    ensures BooksInv(l)
  {
    forall p
      ensures Settled(l, p)
    {
    }
  }

  lemma EmptyLedgerInv(l: Ledger, now: nat)
    requires l == EMPTY_LEDGER
    ensures LedgerInv(l, map[], now)
  {
    EmptyBooks(l);
    EmptyRules(l.tickets, l.transfers, l.cardReferences, now);
  }
}
