/** What every ticket, its refunds and its card reference keep, step by step. */
module TicketRules {
  import opened Common
  import opened Money
  import opened Catalog
  import opened PublicationIndex
  import opened Ledger
  import opened Devices
  import opened Books

  // ---------------------------------------------------------------- one ticket

  /**
   A crypto ticket's shares add up to its gross amount and it is never `Watched` or `Voided`; a
   card ticket holds no money and is never refunded or released.
   */
  predicate TicketOk(t: Ticket, publications: map<Id, Publication>, now: nat) {
    && t.publicationId in publications && publications[t.publicationId].creator == t.creator
    && t.purchasedAt <= now && t.purchasedAt + ESCROW_MS <= U64_MAX
    && t.deviceEpoch <= U32_MAX && DevicesOk(t.devices, now)
    && (t.rail.Crypto? ==> t.card.None? && Splits(t) && !t.status.Watched? && !t.status.Voided?)
    && (t.rail.Card? ==> t.card.Some? && t.gross == 0 && t.split == Split(0, 0, 0)
                         && (t.status.Purchased? || t.status.Watched? || t.status.Voided?))
  }

  ghost predicate TicketsInv(tickets: map<Id, Ticket>, publications: map<Id, Publication>, now: nat) {
    forall id {:trigger TicketOk(tickets[id], publications, now)} | id in tickets :: TicketOk(tickets[id], publications, now)
  }

  lemma TicketsWrite(tickets: map<Id, Ticket>, publications: map<Id, Publication>, now: nat, id: Id, t: Ticket)
    requires TicketsInv(tickets, publications, now) && TicketOk(t, publications, now)
    ensures TicketsInv(tickets[id := t], publications, now)
  {
    var n := tickets[id := t];
    forall k | k in n
      ensures TicketOk(n[k], publications, now)
    {
      assert k != id ==> TicketOk(tickets[k], publications, now);
    }
  }

  /** Time passes and publications only become less available: no ticket notices. */
  lemma TicketsAge(tickets: map<Id, Ticket>, before: map<Id, Publication>, after: map<Id, Publication>, now: nat, later: nat)
    requires TicketsInv(tickets, before, now) && Keeps(before, after) && now <= later
    ensures TicketsInv(tickets, after, later)
  {
    forall id | id in tickets
      ensures TicketOk(tickets[id], after, later)
    {
      assert TicketOk(tickets[id], before, now);
      assert before[tickets[id].publicationId].creator == tickets[id].creator;
    }
  }

  // ---------------------------------------------------------------- refunds

  predicate RefundOf(x: Transfer, id: Id) {
    x.purpose.TicketRefund? && x.purpose.ticketId == id && !x.fate.Returned?
  }

  ghost predicate HasRefund(xs: seq<Transfer>, id: Id) {
    exists i :: 0 <= i < |xs| && RefundOf(xs[i], id)
  }

  /** A refunded ticket has exactly one refund that was not returned; every other ticket has none. */
  ghost predicate RefundsInv(tickets: map<Id, Ticket>, xs: seq<Transfer>) {
    && (forall i {:trigger xs[i]} | 0 <= i < |xs| :: xs[i].fate.Returned? || RefundFits(tickets, xs[i]))
    && (forall i, j, id {:trigger RefundOf(xs[i], id), RefundOf(xs[j], id)} | 0 <= i < j < |xs| ::
          !(RefundOf(xs[i], id) && RefundOf(xs[j], id)))
    && (forall id {:trigger HasRefund(xs, id)} | id in tickets && tickets[id].status.Refunded? :: HasRefund(xs, id))
  }

  /** A ticket write that leaves refund status, rail and gross alone, or a new purchase. */
  lemma RefundsStay(tickets: map<Id, Ticket>, xs: seq<Transfer>, id: Id, t: Ticket)
    requires RefundsInv(tickets, xs)
    requires id in tickets ==> t.rail == tickets[id].rail && t.gross == tickets[id].gross
                               && (t.status.Refunded? <==> tickets[id].status.Refunded?)
    requires id !in tickets ==> !t.status.Refunded?
    ensures RefundsInv(tickets[id := t], xs)
  {
    forall k | k in tickets[id := t] && tickets[id := t][k].status.Refunded?
      ensures HasRefund(xs, k)
    {
      assert HasRefund(xs, k);
    }
  }

  lemma PayoutAddsNoRefund(tickets: map<Id, Ticket>, xs: seq<Transfer>, x: Transfer)
    requires RefundsInv(tickets, xs) && !x.purpose.TicketRefund?
    ensures RefundsInv(tickets, xs + [x])
  {
    var n := xs + [x];
    forall id | id in tickets && tickets[id].status.Refunded?
      ensures HasRefund(n, id)
    {
      assert HasRefund(xs, id);
      var i :| 0 <= i < |xs| && RefundOf(xs[i], id);
      assert RefundOf(n[i], id);
    }
  }

  lemma StartKeepsRefunds(l: Ledger, id: Id, to: AccountId)
    requires RefundsInv(l.tickets, l.transfers)
    requires id in l.tickets && InEscrow(l.tickets[id]) && l.tickets[id].gross <= l.escrow
    ensures RefundsInv(StartRefund(l, id, to).tickets, StartRefund(l, id, to).transfers)
  {
    var xs := l.transfers;
    var n := StartRefund(l, id, to);
    forall i | 0 <= i < |xs|
      ensures !RefundOf(xs[i], id)
    {
      assert xs[i].fate.Returned? || RefundFits(l.tickets, xs[i]);
    }
    assert RefundOf(n.transfers[|xs|], id);
    forall k | k in n.tickets && n.tickets[k].status.Refunded?
      ensures HasRefund(n.transfers, k)
    {
      if k != id {
        assert HasRefund(xs, k);
        var i :| 0 <= i < |xs| && RefundOf(xs[i], k);
        assert RefundOf(n.transfers[i], k);
      }
    }
  }

  /** An outcome that does not return the amount keeps the refund on record. */
  lemma OutcomeKeepsRefunds(tickets: map<Id, Ticket>, xs: seq<Transfer>, i: nat, fate: Fate)
    requires RefundsInv(tickets, xs) && i < |xs| && !xs[i].fate.Returned?
    requires !fate.Returned? || !xs[i].purpose.TicketRefund?
    ensures RefundsInv(tickets, xs[i := xs[i].(fate := fate)])
  {
    var n := xs[i := xs[i].(fate := fate)];
    assert RefundFits(tickets, xs[i]);
    forall j, id | 0 <= j < |n|
      ensures RefundOf(n[j], id) <==> RefundOf(xs[j], id)
    {
    }
    forall id | id in tickets && tickets[id].status.Refunded?
      ensures HasRefund(n, id)
    {
      assert HasRefund(xs, id);
      var j :| 0 <= j < |xs| && RefundOf(xs[j], id);
      assert RefundOf(n[j], id);
    }
  }

  /** A returned refund gives the ticket its earlier status back and leaves no refund behind. */
  lemma ReturnKeepsRefunds(tickets: map<Id, Ticket>, xs: seq<Transfer>, i: nat)
    requires RefundsInv(tickets, xs) && i < |xs| && !xs[i].fate.Returned? && xs[i].purpose.TicketRefund?
    ensures xs[i].purpose.ticketId in tickets
    ensures var x := xs[i]; var id := x.purpose.ticketId;
            RefundsInv(tickets[id := tickets[id].(status := x.purpose.restore)], xs[i := x.(fate := Returned)])
  {
    var x := xs[i];
    assert RefundFits(tickets, x);
    var id := x.purpose.ticketId;
    var n := xs[i := x.(fate := Returned)];
    var after := tickets[id := tickets[id].(status := x.purpose.restore)];
    assert RefundOf(xs[i], id);
    forall j | 0 <= j < |n|
      ensures n[j].fate.Returned? || RefundFits(after, n[j])
    {
      if j != i && !xs[j].fate.Returned? {
        assert RefundFits(tickets, xs[j]);
        assert !RefundOf(xs[j], id);
      }
    }
    forall k | k in after && after[k].status.Refunded?
      ensures HasRefund(n, k)
    {
      assert HasRefund(xs, k);
      var j :| 0 <= j < |xs| && RefundOf(xs[j], k);
      assert RefundOf(n[j], k);
    }
  }

  // ---------------------------------------------------------------- card references

  ghost predicate CardFor(tickets: map<Id, Ticket>, r: string) {
    exists id :: id in tickets && tickets[id].card.Some? && tickets[id].card.value.reference == r
  }

  /** References and card tickets match one to one, voided tickets included. */
  ghost predicate CardsInv(tickets: map<Id, Ticket>, references: set<string>) {
    && (forall id {:trigger tickets[id].card} | id in tickets && tickets[id].card.Some? :: tickets[id].card.value.reference in references)
    && (forall r {:trigger CardFor(tickets, r)} | r in references :: CardFor(tickets, r))
    && (forall a, b {:trigger tickets[a].card, tickets[b].card} | a in tickets && b in tickets && a != b ::
          tickets[a].card.Some? && tickets[b].card.Some? ==> tickets[a].card.value.reference != tickets[b].card.value.reference)
  }

  /** A write that leaves the card data alone, or a new crypto ticket. */
  lemma CardsStay(tickets: map<Id, Ticket>, references: set<string>, id: Id, t: Ticket)
    requires CardsInv(tickets, references)
    requires if id in tickets then t.card == tickets[id].card else t.card.None?
    ensures CardsInv(tickets[id := t], references)
  {
    var n := tickets[id := t];
    forall r | r in references
      ensures CardFor(n, r)
    {
      assert CardFor(tickets, r);
      var k :| k in tickets && tickets[k].card.Some? && tickets[k].card.value.reference == r;
      assert n[k].card == tickets[k].card;
    }
  }

  lemma CardAdded(tickets: map<Id, Ticket>, references: set<string>, id: Id, t: Ticket)
    requires CardsInv(tickets, references) && id !in tickets
    requires t.card.Some? && t.card.value.reference !in references
    ensures CardsInv(tickets[id := t], references + {t.card.value.reference})
  {
    var n := tickets[id := t];
    forall r | r in references + {t.card.value.reference}
      ensures CardFor(n, r)
    {
      if r in references {
        assert CardFor(tickets, r);
        var k :| k in tickets && tickets[k].card.Some? && tickets[k].card.value.reference == r;
        assert n[k].card == tickets[k].card;
      } else {
        assert n[id].card == t.card;
      }
    }
  }
}
