/** Authorities over whole runs: roles stay apart, and nothing time-locked happens early. */
module Authorities {
  import opened Common
  import opened Governance
  import opened Catalog
  import opened Ledger
  import opened Releases
  import opened Runs

  lemma GovIsSound(r: Run, i: nat)
    requires Valid(r) && i <= |r.steps|
    ensures GovInv(r.states[i].gov)
  {
    hide GovInv, PublicationIndex.IndexInv, Admission.AdmissionInv, LedgerSteps.LedgerInv, FeesInv;
    RunsKeepInv(r, i);
  }

  /**
   In every state of every run the authorities are kept apart, and whoever is proposed as the
   next bridge holds no role, although executing a bridge rotation checks nothing again.
   */
  lemma AuthoritiesStayApart(r: Run, i: nat)
    requires Valid(r) && i <= |r.steps|
    ensures Separated(r.states[i].gov.roles)
    ensures r.states[i].gov.pendingBridge.Some? ==>
              forall role :: Holder(r.states[i].gov.roles, role) != r.states[i].gov.pendingBridge.value
  {
    GovIsSound(r, i);
  }

  // ---------------------------------------------------------------- the tax account

  predicate TaxApart(rs: Roles) {
    rs.tax != rs.platform && rs.tax != rs.bridge
  }

  /** The call installs the tax account as bridge or as platform. */
  predicate InstallsTax(g: Gov, op: GovOp) {
    || (op.BridgeExecution? && g.pendingBridge == Some(g.roles.tax))
    || (op == GovOp.RoleExecution(Platform) && Platform in g.rotations && g.rotations[Platform].next == g.roles.tax)
  }

  /** The tax account is only checked at creation: rotations lose the separation in exactly these cases. */
  lemma TaxStaysApartIff(g: Gov, now: nat, caller: AccountId, op: GovOp)
    requires LocksInv(g) && TaxApart(g.roles) && ApplyGov(g, now, caller, op).Some?
    ensures TaxApart(ApplyGov(g, now, caller, op).value.roles) <==> !InstallsTax(g, op)
  {
    var n := ApplyGov(g, now, caller, op).value;
    assert n.roles.tax == g.roles.tax;
    if !op.BridgeExecution? && !op.RoleExecution? {
      assert n.roles == g.roles;
    }
  }

  lemma TaxTakesOver(g: Gov)
    requires g == Gov(true, Roles("a", "g", "p", "t", "o", "x", "b"), None, None, map[], Latch(false, None), Latch(false, None), {1})
    ensures ApplyGov(g, 0, "a", BridgeProposal("x")) == Some(g.(pendingBridge := Some("x"), bridgeProposedAt := Some(0)))
    ensures ApplyGov(g.(pendingBridge := Some("x"), bridgeProposedAt := Some(0)), ROTATION_DELAY_MS, "a", BridgeExecution)
            == Some(g.(roles := g.roles.(bridge := "x")))
  {
  }

  lemma Created(roles: Roles)
    requires Separated(roles) && TaxApart(roles)
    ensures Initial(State(Gov(true, roles, None, None, map[], Latch(false, None), Latch(false, None), {1}), EmptyCatalog(false), EMPTY_LEDGER))
  {
    assert Runs.Create(Config(true, roles, 1), false).Some?;
  }

  lemma GovernanceNext(s: State, step: Step)
    requires step.op.Governing?
    ensures Next(s, step) == s.(gov := ApplyGov(s.gov, step.now, step.caller, step.op.order).GetOr(s.gov))
  {
  }

  lemma TwoStepRun(s: State, a: Step, b: Step)
    requires Initial(s) && a.now <= b.now
    ensures Valid(Run([s, Next(s, a), Next(Next(s, a), b)], [a, b]))
  {
    hide Initial, Next;
  }

  /** A mainnet run in which it happens: the admin proposes the tax account as bridge and executes 48 hours later. */
  lemma TaxMayBecomeBridge()
    ensures exists r: Run :: Valid(r) && |r.steps| == 2 && TaxApart(r.states[0].gov.roles) && !TaxApart(r.states[2].gov.roles)
  {
    var roles := Roles("a", "g", "p", "t", "o", "x", "b");
    Created(roles);
    hide Valid, Next, Initial;
    var s := State(Gov(true, roles, None, None, map[], Latch(false, None), Latch(false, None), {1}), EmptyCatalog(false), EMPTY_LEDGER);
    var a := Step(0, "a", Governing(BridgeProposal("x")));
    var b := Step(ROTATION_DELAY_MS, "a", Governing(BridgeExecution));
    TwoStepRun(s, a, b);
    GovernanceNext(s, a);
    GovernanceNext(Next(s, a), b);
    TaxTakesOver(s.gov);
    hide ApplyGov;
    var r := Run([s, Next(s, a), Next(Next(s, a), b)], [a, b]);
    assert r.states[2].gov.roles == roles.(bridge := "x");
    assert Valid(r);
  }

  // ---------------------------------------------------------------- time locks

  lemma NetworkStep(s: State, step: Step)
    ensures Next(s, step).gov.mainnet == s.gov.mainnet
    ensures !step.op.Governing? ==> Next(s, step).gov == s.gov
  {
  }

  lemma {:induction false} NetworkIsFixed(r: Run, i: nat, j: nat)
    requires Valid(r) && i <= j <= |r.steps|
    ensures r.states[i].gov.mainnet == r.states[j].gov.mainnet
    decreases j
  {
    hide Initial;
    if i < j {
      NetworkIsFixed(r, i, j - 1);
      assert r.states[(j - 1) + 1] == Next(r.states[j - 1], r.steps[j - 1]);
      NetworkStep(r.states[j - 1], r.steps[j - 1]);
    }
  }

  /** Step `q` is the admin's request, and it is pending without a break from then through state `n`. */
  ghost predicate RequestedAt(r: Run, lock: Lock, q: nat, n: nat, request: Request) {
    && q < n <= |r.steps| && |r.states| == |r.steps| + 1
    && r.steps[q].op.Governing? && Requests(r.steps[q].op.order, lock) && r.steps[q].caller == r.states[q].gov.roles.admin
    && PendingRequest(r.states[q].gov, lock).None? && request.at == r.steps[q].now
    && (forall k {:trigger r.states[k]} | q < k <= n :: PendingRequest(r.states[k].gov, lock) == Some(request))
  }

  lemma RequestStep(s: State, step: Step, lock: Lock)
    requires LocksInv(s.gov) && PendingRequest(Next(s, step).gov, lock).Some?
    ensures PendingRequest(Next(s, step).gov, lock) == PendingRequest(s.gov, lock)
            || (&& step.op.Governing? && Requests(step.op.order, lock) && step.caller == s.gov.roles.admin
                && PendingRequest(s.gov, lock).None? && PendingRequest(Next(s, step).gov, lock).value.at == step.now)
  {
    hide LocksInv;
    if step.op.Governing? && Apply(s, step.now, step.caller, step.op).Some? {
      RequestsBeginNow(s.gov, step.now, step.caller, step.op.order, lock);
    } else {
      assert Next(s, step).gov == s.gov;
    }
  }

  lemma StartsWithoutRequests(r: Run, lock: Lock)
    requires Valid(r)
    ensures PendingRequest(r.states[0].gov, lock).None?
  {
  }

  /** Every pending request of a run goes back to one call that made it. */
  lemma {:induction false} RequestHasOrigin(r: Run, lock: Lock, n: nat)
    requires Valid(r) && n <= |r.steps| && PendingRequest(r.states[n].gov, lock).Some?
    ensures exists q: nat :: RequestedAt(r, lock, q, n, PendingRequest(r.states[n].gov, lock).value)
    decreases n
  {
    hide Next, PendingRequest, LocksInv, RolesInv;
    if n == 0 {
      StartsWithoutRequests(r, lock);
    } else {
      GovIsSound(r, n - 1);
      assert r.states[(n - 1) + 1] == Next(r.states[n - 1], r.steps[n - 1]);
      RequestStep(r.states[n - 1], r.steps[n - 1], lock);
      var request := PendingRequest(r.states[n].gov, lock).value;
      if PendingRequest(r.states[n].gov, lock) == PendingRequest(r.states[n - 1].gov, lock) {
        RequestHasOrigin(r, lock, n - 1);
        var q: nat :| RequestedAt(r, lock, q, n - 1, request);
        assert RequestedAt(r, lock, q, n, request);
      } else {
        assert RequestedAt(r, lock, n - 1, n, request);
      }
    }
  }

  lemma FiringStep(s: State, step: Step, lock: Lock)
    requires LocksInv(s.gov) && Fired(s.gov, Next(s, step).gov, lock)
    ensures && PendingRequest(s.gov, lock).Some?
            && PendingRequest(s.gov, lock).value.at + LockDelay(s.gov, lock) <= step.now
            && PendingRequest(s.gov, lock).value.target == Installed(Next(s, step).gov, lock)
            && step.caller == s.gov.roles.admin
  {
    hide LocksInv;
    assert step.op.Governing? && Apply(s, step.now, step.caller, step.op).Some?;
    FiringNeedsRequest(s.gov, step.now, step.caller, step.op.order, lock);
  }

  /** The switch stays closed from just after step `q` through state `n`. */
  ghost predicate ClosedThroughout(r: Run, which: Switch, q: nat, n: nat) {
    n < |r.states| && forall k {:trigger r.states[k]} | q <= k <= n :: GetLatch(r.states[k].gov, which).closed
  }

  lemma RequestsMeanClosed(r: Run, which: Switch, q: nat, n: nat, request: Request)
    requires Valid(r) && RequestedAt(r, OpenSwitch(which), q, n, request)
    ensures ClosedThroughout(r, which, q + 1, n)
  {
    forall k | q + 1 <= k <= n
      ensures GetLatch(r.states[k].gov, which).closed
    {
      GovIsSound(r, k);
      assert PendingRequest(r.states[k].gov, OpenSwitch(which)) == Some(request);
    }
  }

  lemma RequestTime(r: Run, lock: Lock, q: nat, n: nat, request: Request)
    requires RequestedAt(r, lock, q, n, request)
    ensures q < n <= |r.steps| && request.at == r.steps[q].now
  {
  }

  /**
   Whenever a guarded change happens in a run, the admin asked for it in one earlier call; the
   request was then never cancelled or replaced, has waited out its full delay (24 hours for a
   reopening, 48 hours for a rotation, on mainnet), and, for a rotation, names the account that
   took over. A switch that reopens was closed throughout that time.
   */
  lemma GuardedChangesWait(r: Run, n: nat, lock: Lock)
    requires Valid(r) && n < |r.steps| && Fired(r.states[n].gov, r.states[n + 1].gov, lock)
    ensures exists q: nat, request ::
              && RequestedAt(r, lock, q, n, request)
              && request.at == r.steps[q].now
              && request.at + (if !r.states[0].gov.mainnet then 0 else if lock.OpenSwitch? then REOPEN_DELAY_MS else ROTATION_DELAY_MS) <= r.steps[n].now
              && request.target == Installed(r.states[n + 1].gov, lock)
              && (lock.OpenSwitch? ==> ClosedThroughout(r, lock.which, q + 1, n))
  {
    hide Next, PendingRequest, RolesInv, LocksInv, RequestedAt, ClosedThroughout, Fired, Installed;
    GovIsSound(r, n);
    assert r.states[n + 1] == Next(r.states[n], r.steps[n]);
    FiringStep(r.states[n], r.steps[n], lock);
    RequestHasOrigin(r, lock, n);
    var request := PendingRequest(r.states[n].gov, lock).value;
    var q: nat :| RequestedAt(r, lock, q, n, request);
    assert q < n && request.at == r.steps[q].now by { RequestTime(r, lock, q, n, request); }
    NetworkIsFixed(r, 0, n);
    if lock.OpenSwitch? {
      RequestsMeanClosed(r, lock.which, q, n, request);
    }
  }

  // ---------------------------------------------------------------- what the switches stop

  /** Only the guardian closes a switch; only the admin opens one. */
  lemma SwitchesHaveKeepers(s: State, step: Step, which: Switch)
    requires LocksInv(s.gov)
    ensures var n := Next(s, step);
            && (!GetLatch(s.gov, which).closed && GetLatch(n.gov, which).closed ==> step.caller == s.gov.roles.guardian)
            && (GetLatch(s.gov, which).closed && !GetLatch(n.gov, which).closed ==> step.caller == s.gov.roles.admin)
  {
    hide LocksInv;
    if step.op.Governing? {
      if Fired(s.gov, Next(s, step).gov, OpenSwitch(which)) {
        FiringStep(s, step, OpenSwitch(which));
      }
    } else {
      NetworkStep(s, step);
    }
  }

  lemma CatalogAddsNoJob(c: Catalog, g: Gov, now: nat, caller: AccountId, entry: CatalogOp)
    ensures ApplyCatalog(c, g, now, caller, entry).Some? ==> ApplyCatalog(c, g, now, caller, entry).value.jobs.Keys == c.jobs.Keys
  {
  }

  lemma PauseStopsTickets(l: Ledger, c: Catalog, g: Gov, now: nat, caller: AccountId, deal: LedgerOp)
    requires g.pause.closed
    ensures var n := ApplyLedger(l, c, g, now, caller, deal);
            n.Some? ==> n.value.tickets.Keys == l.tickets.Keys && n.value.received == l.received && n.value.nearFees == l.nearFees
  {
    if deal.Releasing? && ReleaseAll(l, c, now, deal.ids).Some? {
      ReleaseAllTickets(l, c, now, deal.ids);
      ReleaseAllFrame(l, c, now, deal.ids);
    }
  }

  /** While purchases are paused no ticket and no job appears, of any kind, and no token is kept. */
  lemma PauseStopsSales(s: State, step: Step)
    requires s.gov.pause.closed
    ensures var n := Next(s, step);
            && n.ledger.tickets.Keys == s.ledger.tickets.Keys && n.catalog.jobs.Keys == s.catalog.jobs.Keys
            && n.ledger.received == s.ledger.received && n.ledger.nearFees == s.ledger.nearFees
  {
    hide ApplyGov;
    if step.op.Trading? {
      PauseStopsTickets(s.ledger, s.catalog, s.gov, step.now, step.caller, step.op.deal);
    } else if step.op.Cataloguing? {
      CatalogAddsNoJob(s.catalog, s.gov, step.now, step.caller, step.op.entry);
    }
  }

  /** The call is the takedown authority's order, and it changes one publication from another availability to taken down. */
  predicate TakesDown(s: State, step: Step, n: State) {
    && step.op.Cataloguing? && step.op.entry.TakedownOrder? && step.caller == s.gov.roles.takedown
    && var id := step.op.entry.id;
    && id in s.catalog.publications && s.catalog.publications[id].availability != Takedown
    && n.catalog.publications == s.catalog.publications[id := s.catalog.publications[id].(availability := Takedown)]
  }

  lemma FreezeStopsPublishing(c: Catalog, g: Gov, now: nat, caller: AccountId, entry: CatalogOp)
    requires g.freeze.closed
    ensures var n := ApplyCatalog(c, g, now, caller, entry);
            n.Some? && n.value.publications != c.publications ==>
              && entry.TakedownOrder? && caller == g.roles.takedown && entry.id in c.publications
              && c.publications[entry.id].availability != Takedown
              && n.value.publications == c.publications[entry.id := c.publications[entry.id].(availability := Takedown)]
  {
  }

  lemma FundingAddsNoPublication(s: State, step: Step)
    requires step.op.JobFunding? || step.op.NearJobFunding?
    ensures Next(s, step).catalog.publications == s.catalog.publications && Next(s, step).ledger.tickets == s.ledger.tickets
  {
  }

  lemma FreezeStopsWatching(l: Ledger, c: Catalog, g: Gov, now: nat, caller: AccountId, deal: LedgerOp, id: Id)
    requires g.freeze.closed && TicketRules.RefundsInv(l.tickets, l.transfers)
    requires id in l.tickets && l.tickets[id].status.Purchased? && ApplyLedger(l, c, g, now, caller, deal).Some?
    ensures var n := ApplyLedger(l, c, g, now, caller, deal).value;
            id in n.tickets ==> !n.tickets[id].status.WatchedInEscrow? && !n.tickets[id].status.Watched?
  {
    match deal
    case Releasing(ids, _) =>
      ReleaseAllTickets(l, c, now, ids);
      assert ReleaseAll(l, c, now, ids).value.tickets[id] == AfterRelease(l.tickets[id], c, now, id in ids);
    case Resolution(i, success) => assert l.transfers[i].fate.Returned? || Books.RefundFits(l.tickets, l.transfers[i]);
    case _ =>
  }

  /** While the bridge is frozen no publication appears or changes except by takedown, and no ticket is marked as watched. */
  lemma FreezeStopsBridge(s: State, step: Step, id: Id)
    requires s.gov.freeze.closed && TicketRules.RefundsInv(s.ledger.tickets, s.ledger.transfers)
    ensures var n := Next(s, step);
            && (n.catalog.publications != s.catalog.publications ==> TakesDown(s, step, n))
            && (id in s.ledger.tickets && s.ledger.tickets[id].status.Purchased? && id in n.ledger.tickets ==>
                  !n.ledger.tickets[id].status.WatchedInEscrow? && !n.ledger.tickets[id].status.Watched?)
  {
    hide ApplyGov, ApplyCatalog, ApplyLedger, FundJob, FundJobNear;
    if step.op.Cataloguing? {
      FreezeStopsPublishing(s.catalog, s.gov, step.now, step.caller, step.op.entry);
    }
    if step.op.Trading? && id in s.ledger.tickets && s.ledger.tickets[id].status.Purchased?
       && ApplyLedger(s.ledger, s.catalog, s.gov, step.now, step.caller, step.op.deal).Some? {
      FreezeStopsWatching(s.ledger, s.catalog, s.gov, step.now, step.caller, step.op.deal, id);
    } else if step.op.JobFunding? || step.op.NearJobFunding? {
      FundingAddsNoPublication(s, step);
    }
  }
}
