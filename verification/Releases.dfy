/** What a batch of releases does, independently of the order in which it names tickets. */
module Releases {
  import opened Common
  import opened Catalog
  import opened Ledger
  import opened Books
  import opened LedgerSteps
  import opened TicketRules

  /** What a batch does to one ticket. */
  function AfterRelease(t: Ticket, c: Catalog, now: nat, named: bool): Ticket {
    if named && ReleaseOpen(t, c, now) then t.(status := Released) else t
  }

  /**
   A batch releases exactly the eligible tickets it names, each once, however often and in
   whatever order it names them, and leaves every other ticket alone.
   */
  lemma {:induction false} ReleaseAllTickets(l: Ledger, c: Catalog, now: nat, ids: seq<Id>)
    requires ReleaseAll(l, c, now, ids).Some?
    ensures var n := ReleaseAll(l, c, now, ids).value;
            && n.tickets.Keys == l.tickets.Keys
            && (forall id {:trigger n.tickets[id]} {:trigger l.tickets[id]} | id in l.tickets ::
                  n.tickets[id] == AfterRelease(l.tickets[id], c, now, id in ids))
  {
    if ids != [] {
      var rest, last := ids[..|ids| - 1], ids[|ids| - 1];
      ReleaseAllTickets(l, c, now, rest);
      var m := ReleaseAll(l, c, now, rest).value;
      assert ids == rest + [last];
      assert forall id :: id in ids <==> id in rest || id == last;
      if last in m.tickets {
        assert m.tickets[last] == AfterRelease(l.tickets[last], c, now, last in rest);
      }
    }
  }

  lemma {:induction false} ReleaseAllCreators(l: Ledger, c: Catalog, now: nat, ids: seq<Id>)
    requires ReleaseAll(l, c, now, ids).Some?
    ensures var n := ReleaseAll(l, c, now, ids).value;
            forall a :: a in n.creators <==> a in l.creators
                                             || exists id :: id in ids && id in l.tickets && ReleaseOpen(l.tickets[id], c, now) && l.tickets[id].creator == a
  {
    if ids != [] {
      var rest, last := ids[..|ids| - 1], ids[|ids| - 1];
      ReleaseAllCreators(l, c, now, rest);
      ReleaseAllTickets(l, c, now, rest);
      assert ids == rest + [last];
      var m := ReleaseAll(l, c, now, rest).value;
      if last in l.tickets {
        assert m.tickets[last] == AfterRelease(l.tickets[last], c, now, last in rest);
      }
    }
  }

  lemma {:induction false} ReleaseAllFrame(l: Ledger, c: Catalog, now: nat, ids: seq<Id>)
    requires ReleaseAll(l, c, now, ids).Some?
    ensures var n := ReleaseAll(l, c, now, ids).value;
            n == l.(tickets := n.tickets, escrow := n.escrow, tax := n.tax, platform := n.platform, creators := n.creators)
  {
    if ids != [] {
      ReleaseAllFrame(l, c, now, ids[..|ids| - 1]);
    }
  }

  /** Two settled ledgers with the same tickets, transfers and fees have the same balances. */
  lemma BooksFixBalances(l: Ledger, n: Ledger, p: Party)
    requires AllSettled(l) && AllSettled(n)
    requires l.tickets == n.tickets && l.transfers == n.transfers && l.fees == n.fees
    ensures Balance(l, p) == Balance(n, p)
  {
    assert Settled(l, p) && Settled(n, p);
  }

  /** A batch is a set: two batches naming the same tickets leave the same ledger, to the last unit. */
  lemma ReleaseOrderIsIrrelevant(l: Ledger, c: Catalog, now: nat, a: seq<Id>, b: seq<Id>)
    requires LedgerInv(l, c.publications, now)
    requires forall id :: id in a <==> id in b
    requires ReleaseAll(l, c, now, a).Some? && ReleaseAll(l, c, now, b).Some?
    ensures ReleaseAll(l, c, now, a) == ReleaseAll(l, c, now, b)
  {
    hide AllSettled, Conserved, TicketsInv, RefundsInv, CardsInv;
    var m, n := ReleaseAll(l, c, now, a).value, ReleaseAll(l, c, now, b).value;
    ReleaseKeepsInv(l, c, now, a);
    ReleaseKeepsInv(l, c, now, b);
    ReleaseAllFrame(l, c, now, a);
    ReleaseAllFrame(l, c, now, b);
    assert m.tickets == n.tickets by {
      ReleaseAllTickets(l, c, now, a);
      ReleaseAllTickets(l, c, now, b);
    }
    BooksFixBalances(m, n, Escrow);
    BooksFixBalances(m, n, TaxOffice);
    BooksFixBalances(m, n, PlatformOwner);
    assert m.creators.Keys == n.creators.Keys by {
      ReleaseAllCreators(l, c, now, a);
      ReleaseAllCreators(l, c, now, b);
    }
    forall x | x in m.creators
      ensures m.creators[x] == n.creators[x]
    {
      BooksFixBalances(m, n, Creator(x));
    }
    assert m.creators == n.creators;
  }

  // ---------------------------------------------------------------- the loop, one name at a time

  /** The eligible tickets that the batch names. */
  ghost function Eligible(tickets: map<Id, Ticket>, c: Catalog, now: nat, ids: seq<Id>): set<Id> {
    set id | id in ids && id in tickets && ReleaseOpen(tickets[id], c, now)
  }

  /** Once one name makes the batch panic, so does the whole batch. */
  lemma {:induction false} ReleaseStops(l: Ledger, c: Catalog, now: nat, ids: seq<Id>, k: nat)
    requires k <= |ids| && ReleaseAll(l, c, now, ids[..k]).None?
    ensures ReleaseAll(l, c, now, ids).None?
    decreases |ids|
  {
    if k < |ids| {
      assert ids[..|ids| - 1][..k] == ids[..k];
      ReleaseStops(l, c, now, ids[..|ids| - 1], k);
    } else {
      assert ids[..k] == ids;
    }
  }

  lemma ReleaseStart(l: Ledger, c: Catalog, now: nat, ids: seq<Id>)
    ensures ReleaseAll(l, c, now, ids[..0]) == Some(l) && Eligible(l.tickets, c, now, ids[..0]) == {}
  {
  }

  lemma ReleaseNext(l: Ledger, c: Catalog, now: nat, ids: seq<Id>, k: nat)
    requires k < |ids| && ReleaseAll(l, c, now, ids[..k]).Some?
    ensures ReleaseAll(l, c, now, ids[..k + 1]) == ReleaseOne(ReleaseAll(l, c, now, ids[..k]).value, c, now, ids[k])
    ensures ReleaseAll(l, c, now, ids[..k + 1]).None? ==> ReleaseAll(l, c, now, ids).None?
    ensures var m := ReleaseAll(l, c, now, ids[..k]).value;
            ids[k] in m.tickets && ReleaseOpen(m.tickets[ids[k]], c, now)
            <==> ids[k] in l.tickets && ReleaseOpen(l.tickets[ids[k]], c, now) && ids[k] !in ids[..k]
  {
    assert ids[..k + 1][..k] == ids[..k];
    ReleaseAllTickets(l, c, now, ids[..k]);
    if ids[k] in l.tickets {
      assert ReleaseAll(l, c, now, ids[..k]).value.tickets[ids[k]] == AfterRelease(l.tickets[ids[k]], c, now, ids[k] in ids[..k]);
    }
    if ReleaseAll(l, c, now, ids[..k + 1]).None? {
      ReleaseStops(l, c, now, ids, k + 1);
    }
  }

  lemma EligibleNext(tickets: map<Id, Ticket>, c: Catalog, now: nat, ids: seq<Id>, k: nat)
    requires k < |ids|
    ensures var before, after := Eligible(tickets, c, now, ids[..k]), Eligible(tickets, c, now, ids[..k + 1]);
            |after| == |before| + (if ids[k] in tickets && ReleaseOpen(tickets[ids[k]], c, now) && ids[k] !in ids[..k] then 1 else 0)
  {
    var before, after := Eligible(tickets, c, now, ids[..k]), Eligible(tickets, c, now, ids[..k + 1]);
    assert ids[..k + 1] == ids[..k] + [ids[k]];
    if ids[k] in tickets && ReleaseOpen(tickets[ids[k]], c, now) {
      assert after == before + {ids[k]};
    } else {
      assert after == before;
    }
  }

  lemma {:induction false} NothingEligible(l: Ledger, c: Catalog, now: nat, ids: seq<Id>)
    requires ReleaseAll(l, c, now, ids).Some? && Eligible(l.tickets, c, now, ids) == {}
    ensures ReleaseAll(l, c, now, ids).value == l
  {
    if ids != [] {
      var rest, last := ids[..|ids| - 1], ids[|ids| - 1];
      assert ids == rest + [last];
      assert forall id | id in Eligible(l.tickets, c, now, rest) :: id in Eligible(l.tickets, c, now, ids);
      assert last in l.tickets && ReleaseOpen(l.tickets[last], c, now) ==> last in Eligible(l.tickets, c, now, ids);
      NothingEligible(l, c, now, rest);
    }
  }

  /** The batch changes the ledger exactly when it names an eligible ticket. */
  lemma ReleasedIffEligible(l: Ledger, c: Catalog, now: nat, ids: seq<Id>)
    requires ReleaseAll(l, c, now, ids).Some?
    ensures ReleaseAll(l, c, now, ids).value != l <==> |Eligible(l.tickets, c, now, ids)| > 0
  {
    var n := ReleaseAll(l, c, now, ids).value;
    ReleaseAllTickets(l, c, now, ids);
    if Eligible(l.tickets, c, now, ids) == {} {
      NothingEligible(l, c, now, ids);
    } else {
      var id :| id in Eligible(l.tickets, c, now, ids);
      assert n.tickets[id] == AfterRelease(l.tickets[id], c, now, id in ids);
    }
  }
}
