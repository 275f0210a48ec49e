/**
 The contract object itself: its fields, and its methods as they update them in place. Every
 method is one step of the state machine in `Runs`, so every theorem about runs holds of every
 object. A method that answers `ok == false` has panicked; the host has put its writes back.
 */
module Market {
  import opened Common
  import opened Sums
  import opened Money
  import opened Governance
  import Rules = Governance
  import opened Catalog
  import Index = Catalog
  import opened Ledger
  import Accounts = Ledger
  import opened Runs
  import opened Solvency
  import opened Releases
  import Authorities
  import Books
  import PublicationIndex
  import Publishing

  /** The call panicked exactly when the specified result is a panic, and otherwise made it the new value. */
  ghost predicate Outcome<T(!new)>(before: T, after: T, result: Option<T>, ok: bool) {
    ok == result.Some? && after == result.GetOr(before)
  }

  /** A job is created together with its credited fee, or nothing changes. */
  ghost predicate FundingOutcome(c: Catalog, c': Catalog, l: Ledger, l': Ledger, f: Option<Funding>, credited: Option<Ledger>, ok: bool) {
    var created := ok && f.Some? && f.value.Created?;
    && ok == (f.Some? && (f.value.AllReturned? || credited.Some?))
    && c' == (if created then f.value.catalog else c)
    && l' == (if created && credited.Some? then credited.value else l)
  }

  lemma TimesAreOrderedToEnd(r: Run)
    requires Runs.Valid(r)
    ensures forall i {:trigger r.steps[i]} | 0 <= i < |r.steps| :: r.steps[i].now <= Time(r, |r.steps|)
  {
    hide Next, Initial;
  }

  lemma RunGrows(r: Run, step: Step)
    requires Runs.Valid(r) && Time(r, |r.steps|) <= step.now
    ensures Runs.Valid(Run(r.states + [Next(r.states[|r.steps|], step)], r.steps + [step]))
  {
    hide Next, Initial;
    TimesAreOrderedToEnd(r);
  }

  class Market {
    // Authorities, and the raw storage keys of governance.
    const mainnet: bool
    const tax: AccountId
    var admin: AccountId
    var guardian: AccountId
    var platform: AccountId
    var takedownAuthority: AccountId
    var operator: AccountId
    var bridge: AccountId
    var pendingBridge: Option<AccountId>
    var bridgeProposedAt: Option<nat>
    var bridgeFrozen: bool
    var unfreezeRequest: Option<nat>
    var purchasesPaused: bool
    var unpauseRequest: Option<nat>
    var rotations: map<Role, PendingRotation>
    var vatKeys: set<nat>

    // Jobs and publications.
    var policy: Option<seq<Profile>>
    var jobs: map<Id, Job>
    var publications: map<Id, Publication>
    var assetBindings: map<string, Id>
    var playbackBindings: map<string, Id>
    var takedowns: map<Id, TakedownRecord>
    var publicationIds: map<nat, Id>
    var publicationCount: nat
    var uploads: map<AccountId, Uploads>

    // Tickets and money.
    var tickets: map<Id, Ticket>
    var cardReferences: set<string>
    var escrowBalance: nat
    var taxBalance: nat
    var platformBalance: nat
    var creatorBalances: map<AccountId, nat>
    var platformNearBalance: nat

    // Outside the contract: the promises it started, the tokens it kept, the run so far.
    var transfers: seq<Transfer>
    ghost var received: nat
    ghost var fees: nat
    ghost var nearFees: nat
    ghost var run: Run

    ghost function AbsGov(): Gov
      reads `admin, `guardian, `platform, `takedownAuthority, `operator, `bridge, `pendingBridge, `bridgeProposedAt, `bridgeFrozen,
            `unfreezeRequest, `purchasesPaused, `unpauseRequest, `rotations, `vatKeys
    {
      Gov(mainnet, Roles(admin, guardian, platform, takedownAuthority, operator, tax, bridge), pendingBridge, bridgeProposedAt,
          rotations, Latch(bridgeFrozen, unfreezeRequest), Latch(purchasesPaused, unpauseRequest), vatKeys)
    }

    ghost function AbsCatalog(): Catalog
      reads `policy, `jobs, `publications, `assetBindings, `playbackBindings, `takedowns, `publicationIds, `publicationCount, `uploads
    {
      Catalog(policy, jobs, publications, assetBindings, playbackBindings, takedowns, publicationIds, publicationCount, uploads)
    }

    ghost function AbsLedger(): Ledger
      reads `tickets, `cardReferences, `escrowBalance, `taxBalance, `platformBalance, `creatorBalances, `platformNearBalance,
            `transfers, `received, `fees, `nearFees
    {
      Ledger(tickets, cardReferences, escrowBalance, taxBalance, platformBalance, creatorBalances, platformNearBalance,
             received, fees, nearFees, transfers)
    }

    ghost function Abs(): State
      reads this
    {
      State(AbsGov(), AbsCatalog(), AbsLedger())
    }

    /** The object's state is the latest state of the run that it records. */
    ghost predicate Valid()
      reads this
    {
      Runs.Valid(run) && run.states[|run.steps|] == Abs()
    }

    /** `new` and `new_public_testnet`, after their checks. */
    constructor (config: Config, publicTestnet: bool)
      requires Runs.Create(config, publicTestnet).Some?
      ensures Valid() && Abs() == Runs.Create(config, publicTestnet).value && run.steps == []
    {
      mainnet, tax := config.mainnet, config.roles.tax;
      admin, guardian, platform := config.roles.admin, config.roles.guardian, config.roles.platform;
      takedownAuthority, operator, bridge := config.roles.takedown, config.roles.operator, config.roles.bridge;
      pendingBridge, bridgeProposedAt, rotations, vatKeys := None, None, map[], {config.vatKeyVersion};
      bridgeFrozen, unfreezeRequest, purchasesPaused, unpauseRequest := publicTestnet, None, publicTestnet, None;
      policy := if publicTestnet then Some(STANDARD_PROFILES) else None;
      jobs, publications, assetBindings, playbackBindings, takedowns := map[], map[], map[], map[], map[];
      publicationIds, publicationCount, uploads := map[], 0, map[];
      tickets, cardReferences, creatorBalances, transfers := map[], {}, map[], [];
      escrowBalance, taxBalance, platformBalance, platformNearBalance := 0, 0, 0, 0;
      received, fees, nearFees := 0, 0, 0;
      new;
      run := Run([Abs()], []);
      assert Initial(Abs());
    }

    // -------------------------------------------------------------- freeze and pause

    method FreezeBridge(now: nat, caller: AccountId) returns (ok: bool)
      modifies `bridgeFrozen
      ensures Outcome(old(AbsGov()), AbsGov(), old(Close(AbsGov(), caller, Bridge)), ok)
    {
      if caller != guardian { return false; }
      bridgeFrozen := true;
      return true;
    }

    method RequestBridgeUnfreeze(now: nat, caller: AccountId) returns (ok: bool, requestedAt: nat)
      modifies `unfreezeRequest
      ensures Outcome(old(AbsGov()), AbsGov(), old(RequestReopen(AbsGov(), now, caller, Bridge)), ok)
      ensures ok ==> unfreezeRequest == Some(requestedAt)
    {
      requestedAt := now;
      if caller != admin || !bridgeFrozen { return false, now; }
      if unfreezeRequest.Some? { return true, unfreezeRequest.value; }
      if now + (if mainnet then REOPEN_DELAY_MS else 0) > U64_MAX { return false, now; }
      unfreezeRequest := Some(now);
      ok := true;
    }

    method CancelBridgeUnfreeze(now: nat, caller: AccountId) returns (ok: bool)
      modifies `unfreezeRequest
      ensures Outcome(old(AbsGov()), AbsGov(), old(CancelReopen(AbsGov(), caller, Bridge)), ok)
    {
      if caller != admin && caller != guardian { return false; }
      unfreezeRequest := None;
      return true;
    }

    /** `assert_reopen_elapsed` */
    predicate ReopenElapsed(request: Option<nat>, now: nat) {
      var delay := if mainnet then REOPEN_DELAY_MS else 0;
      request.Some? && request.value + delay <= U64_MAX && request.value + delay <= now
    }

    method UnfreezeBridge(now: nat, caller: AccountId) returns (ok: bool)
      modifies `bridgeFrozen, `unfreezeRequest
      ensures Outcome(old(AbsGov()), AbsGov(), old(Reopen(AbsGov(), now, caller, Bridge)), ok)
    {
      if caller != admin { return false; }
      if bridgeFrozen && !ReopenElapsed(unfreezeRequest, now) { return false; }
      unfreezeRequest := None;
      bridgeFrozen := false;
      return true;
    }

    method PauseNewPurchases(now: nat, caller: AccountId) returns (ok: bool)
      modifies `purchasesPaused
      ensures Outcome(old(AbsGov()), AbsGov(), old(Close(AbsGov(), caller, Purchases)), ok)
    {
      if caller != guardian { return false; }
      purchasesPaused := true;
      return true;
    }

    method RequestNewPurchasesUnpause(now: nat, caller: AccountId) returns (ok: bool, requestedAt: nat)
      modifies `unpauseRequest
      ensures Outcome(old(AbsGov()), AbsGov(), old(RequestReopen(AbsGov(), now, caller, Purchases)), ok)
      ensures ok ==> unpauseRequest == Some(requestedAt)
    {
      requestedAt := now;
      if caller != admin || !purchasesPaused { return false, now; }
      if unpauseRequest.Some? { return true, unpauseRequest.value; }
      if now + (if mainnet then REOPEN_DELAY_MS else 0) > U64_MAX { return false, now; }
      unpauseRequest := Some(now);
      ok := true;
    }

    method CancelNewPurchasesUnpause(now: nat, caller: AccountId) returns (ok: bool)
      modifies `unpauseRequest
      ensures Outcome(old(AbsGov()), AbsGov(), old(CancelReopen(AbsGov(), caller, Purchases)), ok)
    {
      if caller != admin && caller != guardian { return false; }
      unpauseRequest := None;
      return true;
    }

    method UnpauseNewPurchases(now: nat, caller: AccountId) returns (ok: bool)
      modifies `purchasesPaused, `unpauseRequest
      ensures Outcome(old(AbsGov()), AbsGov(), old(Reopen(AbsGov(), now, caller, Purchases)), ok)
    {
      if caller != admin { return false; }
      if purchasesPaused && !ReopenElapsed(unpauseRequest, now) { return false; }
      unpauseRequest := None;
      purchasesPaused := false;
      return true;
    }

    method ClosePublicTestnetBeta(now: nat, caller: AccountId, started: bool, open: bool) returns (ok: bool)
      modifies `purchasesPaused
      ensures Outcome(old(AbsGov()), AbsGov(), old(CloseBeta(AbsGov(), caller, started, open)), ok)
    {
      if caller != guardian || !started { return false; }
      if open {
        purchasesPaused := true;
      }
      return true;
    }

    // -------------------------------------------------------------- rotations

    method ProposeBridgeRotation(now: nat, caller: AccountId, next: AccountId) returns (ok: bool)
      modifies `pendingBridge, `bridgeProposedAt
      ensures Outcome(old(AbsGov()), AbsGov(), old(ProposeBridge(AbsGov(), now, caller, next)), ok)
    {
      if caller != admin { return false; }
      if next == bridge || next == platform || next == takedownAuthority || next == admin || next == guardian || next == operator {
        return false;
      }
      if pendingBridge == Some(next) { return true; }
      if pendingBridge.Some? || now + (if mainnet then ROTATION_DELAY_MS else 0) > U64_MAX { return false; }
      pendingBridge := Some(next);
      bridgeProposedAt := Some(now);
      return true;
    }

    method CancelBridgeRotation(now: nat, caller: AccountId) returns (ok: bool)
      modifies `pendingBridge, `bridgeProposedAt
      ensures Outcome(old(AbsGov()), AbsGov(), old(CancelBridge(AbsGov(), caller)), ok)
    {
      if caller != admin && caller != guardian { return false; }
      if pendingBridge.None? { return true; }
      pendingBridge := None;
      bridgeProposedAt := None;
      return true;
    }

    method ExecuteBridgeRotation(now: nat, caller: AccountId) returns (ok: bool)
      modifies `bridge, `pendingBridge, `bridgeProposedAt
      ensures Outcome(old(AbsGov()), AbsGov(), old(ExecuteBridge(AbsGov(), now, caller)), ok)
    {
      if caller != admin || bridgeProposedAt.None? { return false; }
      var executableAt := bridgeProposedAt.value + (if mainnet then ROTATION_DELAY_MS else 0);
      if executableAt > U64_MAX || now < executableAt || pendingBridge.None? { return false; }
      bridge := pendingBridge.value;
      pendingBridge := None;
      bridgeProposedAt := None;
      return true;
    }

    /** `role_account_id` */
    function RoleAccount(role: Role): AccountId
      reads this
    {
      match role
      case Admin => admin
      case Guardian => guardian
      case Platform => platform
      case TakedownAuthority => takedownAuthority
      case PaymentOperator => operator
    }

    /** `assert_valid_role_assignment`: the separation rules for the roles after the rotation. */
    predicate ValidRoleAssignment(role: Role, next: AccountId)
      reads this
    {
      var newAdmin := if role.Admin? then next else admin;
      var newGuardian := if role.Guardian? then next else guardian;
      var newPlatform := if role.Platform? then next else platform;
      var newTakedown := if role.TakedownAuthority? then next else takedownAuthority;
      var newOperator := if role.PaymentOperator? then next else operator;
      && next != RoleAccount(role)
      && newOperator != bridge && newOperator != newPlatform && newOperator != newAdmin
      && newOperator != newGuardian && newOperator != newTakedown && newOperator != tax
      && newPlatform != bridge && newAdmin != newGuardian && newAdmin != bridge && newGuardian != bridge
      && newTakedown != bridge && newTakedown != newPlatform
      && pendingBridge != Some(next)
    }

    method ProposeRoleRotation(now: nat, caller: AccountId, role: Role, next: AccountId) returns (ok: bool)
      modifies `rotations
      ensures Outcome(old(AbsGov()), AbsGov(), old(ProposeRole(AbsGov(), now, caller, role, next)), ok)
    {
      if caller != admin { return false; }
      if role in rotations { return rotations[role].next == next; }
      var executableAt := now + (if mainnet then ROTATION_DELAY_MS else 0);
      if !ValidRoleAssignment(role, next) || executableAt > U64_MAX { return false; }
      rotations := rotations[role := PendingRotation(RoleAccount(role), next, now, executableAt)];
      return true;
    }

    method CancelRoleRotation(now: nat, caller: AccountId, role: Role) returns (ok: bool)
      modifies `rotations
      ensures Outcome(old(AbsGov()), AbsGov(), old(CancelRole(AbsGov(), caller, role)), ok)
    {
      if caller != admin && caller != guardian { return false; }
      rotations := rotations - {role};
      return true;
    }

    method ExecuteRoleRotation(now: nat, caller: AccountId, role: Role) returns (ok: bool)
      modifies `rotations, `admin, `guardian, `platform, `takedownAuthority, `operator
      ensures Outcome(old(AbsGov()), AbsGov(), old(ExecuteRole(AbsGov(), now, caller, role)), ok)
    {
      if caller != admin || role !in rotations { return false; }
      var pending := rotations[role];
      if now < pending.executableAt || RoleAccount(role) != pending.current || !ValidRoleAssignment(role, pending.next) {
        return false;
      }
      rotations := rotations - {role};
      match role {
        case Admin => admin := pending.next;
        case Guardian => guardian := pending.next;
        case Platform => platform := pending.next;
        case TakedownAuthority => takedownAuthority := pending.next;
        case PaymentOperator => operator := pending.next;
      }
      return true;
    }

    method RevokeVatKey(now: nat, caller: AccountId, version: nat) returns (ok: bool)
      modifies `vatKeys
      ensures Outcome(old(AbsGov()), AbsGov(), old(Rules.RevokeVatKey(AbsGov(), caller, version)), ok)
    {
      if (caller != admin && caller != guardian) || version !in vatKeys { return false; }
      vatKeys := vatKeys - {version};
      return true;
    }

    // -------------------------------------------------------------- jobs and publications

    method CreditPlatform(amount: nat)
      requires platformBalance + amount <= U128_MAX
      modifies `platformBalance, `received, `fees
      ensures Some(AbsLedger()) == old(CreditFee(AbsLedger(), amount))
    {
      platformBalance := platformBalance + amount;
      received, fees := received + amount, fees + amount;
    }

    /** `admit_public_upload` */
    method AdmitPublicUpload(now: nat, r: JobRequest) returns (ok: bool)
      requires policy.Some?
      modifies `uploads
      ensures Outcome(old(AbsCatalog()), AbsCatalog(), old(Admit(AbsCatalog(), now, r)), ok)
    {
      if r.sourceBytes > PUBLIC_SOURCE_MAX_BYTES || policy.value == [] || policy.value[0] != r.profile { return false; }
      if now + JOB_TTL_MS > U64_MAX || r.uploadKeyExpires > now + JOB_TTL_MS { return false; }
      var count := 0;
      if r.creator in uploads {
        var previous := uploads[r.creator];
        if previous.latest in jobs {
          var j := jobs[previous.latest];
          if j.status != Published {
            var deadline := PublicDeadline(j);
            if deadline.None? || now < deadline.value { return false; }
          }
        }
        if previous.day == DayOf(now) {
          count := previous.count;
        }
      }
      if count >= DAILY_UPLOADS { return false; }
      uploads := uploads[r.creator := Uploads(DayOf(now), count + 1, r.jobId)];
      return true;
    }

    /** The writes of the branch: admission, the job, the credited fee; a failed check takes all of them back. */
    method CreateUsdcPaidJob(now: nat, r: JobRequest, amount: nat, quote: Option<string>, runwayOk: bool) returns (ok: bool)
      modifies `jobs, `uploads, `platformBalance, `received, `fees
      ensures var admitted := old(if policy.Some? then Admit(AbsCatalog(), now, r) else Some(AbsCatalog()));
              var credited := old(CreditFee(AbsLedger(), amount));
              && ok == (admitted.Some? && credited.Some? && ValidRequest(r, now) && (old(policy).Some? ==> runwayOk))
              && AbsCatalog() == (if ok then admitted.value.(jobs := admitted.value.jobs[r.jobId := NewJob(r, now, Usdc, amount, amount, quote)]) else old(AbsCatalog()))
              && AbsLedger() == (if ok then credited.value else old(AbsLedger()))
    {
      hide ValidRequest, NewJob, Admit;
      var uploads0 := uploads;
      ok := true;
      if policy.Some? {
        ok := AdmitPublicUpload(now, r);
      }
      ok := ok && ValidRequest(r, now) && platformBalance + amount <= U128_MAX && (policy.Some? ==> runwayOk);
      if ok {
        jobs := jobs[r.jobId := NewJob(r, now, Usdc, amount, amount, quote)];
        CreditPlatform(amount);
      } else {
        uploads := uploads0;
      }
    }

    /** `create_paid_job` by token transfer: the part of the tokens that goes back is `unused`. */
    method CreatePaidJob(now: nat, caller: AccountId, amount: nat, r: JobRequest, quote: Option<string>, quoteOk: bool, runwayOk: bool)
      returns (ok: bool, unused: nat)
      modifies `jobs, `uploads, `platformBalance, `received, `fees
      ensures FundingOutcome(old(AbsCatalog()), AbsCatalog(), old(AbsLedger()), AbsLedger(),
                             old(FundJob(AbsCatalog(), AbsGov(), now, amount, r, quote, quoteOk, runwayOk)), old(CreditFee(AbsLedger(), amount)), ok)
      ensures unused + received == amount + old(received)
    {
      hide UploadFee, ValidRequest, JobMatches, NewJob, Admit;
      unused := amount;
      var fee := UploadFee(r.sourceBytes);
      if fee.None? || (quote.Some? && !(quoteOk && ValidRequest(r, now))) { return false, amount; }
      if policy.Some? && quote.None? { return true, amount; }
      var expected := fee.value + (if quote.Some? then SPONSORED_UPLOAD_FEE else 0);
      if amount != expected { return false, amount; }
      if r.jobId in jobs {
        return JobMatches(jobs[r.jobId], r, Usdc, expected, expected, quote), amount;
      }
      if purchasesPaused { return true, amount; }
      ok := CreateUsdcPaidJob(now, r, amount, quote, runwayOk);
      return ok, if ok then 0 else amount;
    }

    method CreatePaidJobNear(now: nat, caller: AccountId, deposit: nat, r: JobRequest, quote: string, nearUsd: nat, quoteOk: bool)
      returns (ok: bool)
      modifies `jobs, `platformNearBalance, `nearFees
      ensures FundingOutcome(old(AbsCatalog()), AbsCatalog(), old(AbsLedger()), AbsLedger(),
                             old(FundJobNear(AbsCatalog(), AbsGov(), now, caller, deposit, r, quote, nearUsd, quoteOk)),
                             old(CreditNearFee(AbsLedger(), deposit)), ok)
    {
      hide UploadFee, NearFee, ValidRequest, JobMatches, NewJob;
      var fee := UploadFee(r.sourceBytes);
      if policy.Some? || caller != r.creator || !quoteOk || nearUsd == 0 || fee.None? { return false; }
      if deposit != NearFee(fee.value, nearUsd) { return false; }
      if r.jobId in jobs {
        return JobMatches(jobs[r.jobId], r, Near, deposit, fee.value, Some(quote));
      }
      if purchasesPaused || !ValidRequest(r, now) || platformNearBalance + deposit > U128_MAX { return false; }
      jobs := jobs[r.jobId := NewJob(r, now, Near, deposit, fee.value, Some(quote))];
      platformNearBalance := platformNearBalance + deposit;
      nearFees := nearFees + deposit;
      return true;
    }

    method ReplaceUploadKey(now: nat, caller: AccountId, jobId: Id, key: string, expires: nat, wellFormed: bool) returns (ok: bool)
      modifies `jobs
      ensures Outcome(old(AbsCatalog()), AbsCatalog(), old(Index.ReplaceUploadKey(AbsCatalog(), now, caller, jobId, key, expires, wellFormed)), ok)
    {
      if jobId !in jobs { return false; }
      var j := jobs[jobId];
      if caller != j.creator || j.status != Authorized || !wellFormed || expires <= now { return false; }
      if policy.Some? {
        var deadline := PublicDeadline(j);
        if deadline.None? || now >= deadline.value || expires > deadline.value { return false; }
      }
      jobs := jobs[jobId := j.(uploadKey := key, uploadKeyExpires := expires)];
      return true;
    }

    method RestartPaidJob(now: nat, caller: AccountId, jobId: Id, sourceBytes: nat, profile: Profile, wellFormed: bool) returns (ok: bool)
      modifies `jobs
      ensures Outcome(old(AbsCatalog()), AbsCatalog(), old(RestartJob(AbsCatalog(), caller, jobId, sourceBytes, profile, wellFormed)), ok)
    {
      if policy.Some? || jobId !in jobs { return false; }
      var j := jobs[jobId];
      if caller != j.creator || j.status == Published || !wellFormed || j.sourceBytes != sourceBytes || j.generation == U64_MAX {
        return false;
      }
      jobs := jobs[jobId := j.(generation := j.generation + 1, profile := profile)];
      return true;
    }

    /** The writes of `finalize_publication`. */
    method Publish(now: nat, j: Job, s: Submission)
      modifies `jobs, `publications, `publicationIds, `publicationCount, `assetBindings, `playbackBindings
      ensures AbsCatalog() == old(AbsCatalog().(
                jobs := jobs[s.jobId := j.(status := Published, publishedAt := Some(now))],
                publications := publications[s.jobId := NewPublication(j, s, now)],
                ids := publicationIds[publicationCount := s.jobId],
                count := publicationCount + 1,
                assets := assetBindings[s.assetHash := s.jobId],
                playbacks := playbackBindings[s.playbackId := s.jobId]))
    {
      hide NewPublication;
      jobs := jobs[s.jobId := j.(status := Published, publishedAt := Some(now))];
      publications := publications[s.jobId := NewPublication(j, s, now)];
      publicationIds := publicationIds[publicationCount := s.jobId];
      publicationCount := publicationCount + 1;
      assetBindings := assetBindings[s.assetHash := s.jobId];
      playbackBindings := playbackBindings[s.playbackId := s.jobId];
    }

    method FinalizePublication(now: nat, caller: AccountId, s: Submission) returns (ok: bool)
      modifies `jobs, `publications, `publicationIds, `publicationCount, `assetBindings, `playbackBindings
      ensures Outcome(old(AbsCatalog()), AbsCatalog(), old(Finalize(AbsCatalog(), AbsGov(), now, caller, s)), ok)
    {
      hide SubmissionFitsJob, PublicationMatches, PublicDeadline, NewPublication;
      if caller != bridge || bridgeFrozen || s.availability != Active || !s.wellFormed || s.readyAt == 0 { return false; }
      if s.jobId !in jobs || !SubmissionFitsJob(jobs[s.jobId], s) { return false; }
      if s.jobId in publications { return PublicationMatches(publications[s.jobId], s); }
      var j := jobs[s.jobId];
      if policy.Some? {
        var deadline := PublicDeadline(j);
        if deadline.None? || now >= deadline.value { return false; }
      }
      if s.assetHash in assetBindings && assetBindings[s.assetHash] != s.jobId { return false; }
      if s.playbackId in playbackBindings && playbackBindings[s.playbackId] != s.jobId { return false; }
      if publicationCount == U64_MAX { return false; }
      Publish(now, j, s);
      return true;
    }

    method SuspendSales(now: nat, caller: AccountId, id: Id) returns (ok: bool)
      modifies `publications
      ensures Outcome(old(AbsCatalog()), AbsCatalog(), old(Index.SuspendSales(AbsCatalog(), AbsGov(), caller, id)), ok)
    {
      if caller != bridge || bridgeFrozen || id !in publications || publications[id].availability == Takedown { return false; }
      if publications[id].availability == SalesSuspended {
        assert publications == publications[id := publications[id].(availability := SalesSuspended)];
        return true;
      }
      publications := publications[id := publications[id].(availability := SalesSuspended)];
      return true;
    }

    method TakedownPublication(now: nat, caller: AccountId, id: Id, record: TakedownRecord, wellFormed: bool) returns (ok: bool)
      modifies `publications, `takedowns
      ensures Outcome(old(AbsCatalog()), AbsCatalog(), old(TakeDown(AbsCatalog(), AbsGov(), now, caller, id, record, wellFormed)), ok)
    {
      if caller != takedownAuthority || !wellFormed || record.effectiveAt == 0 || record.effectiveAt > now { return false; }
      if id !in publications { return false; }
      if publications[id].availability == Takedown {
        return id in takedowns && takedowns[id].reason == record.reason && takedowns[id].incident == record.incident
               && takedowns[id].evidence == record.evidence && takedowns[id].effectiveAt == record.effectiveAt;
      }
      publications := publications[id := publications[id].(availability := Takedown)];
      takedowns := takedowns[id := record.(recordedAt := now)];
      return true;
    }

    method SetPublicUploadFullHd(now: nat, caller: AccountId, enabled: bool, runwayOk: bool) returns (ok: bool)
      modifies `policy
      ensures Outcome(old(AbsCatalog()), AbsCatalog(), old(SetFullHd(AbsCatalog(), AbsGov(), caller, enabled, runwayOk)), ok)
    {
      if caller != admin || mainnet || !bridgeFrozen || !purchasesPaused || policy.None? { return false; }
      if policy.value != STANDARD_PROFILES && policy.value != FULL_HD_PROFILES { return false; }
      var selected := if enabled then FULL_HD_PROFILES else STANDARD_PROFILES;
      if policy.value != selected {
        if !runwayOk { return false; }
        policy := Some(selected);
      }
      return true;
    }

    /** The index of the object is consistent, because its run keeps it so. */
    lemma ListsAreConsistent()
      requires Valid()
      ensures PublicationIndex.ListsInv(publicationIds, publicationCount, publications.Keys)
    {
      assert run.states[|run.steps|].catalog == AbsCatalog();
      hide Runs.Valid, PublicationIndex.ListsInv;
      Publishing.RunMakesLater(run, |run.steps|, |run.steps|);
    }

    /** `get_publications`; in an object that has come from calls, its two `expect` panics cannot happen. */
    method GetPublications(from: Option<nat>, limit: Option<nat>) returns (page: seq<Publication>)
      requires Valid()
      ensures Index.GetPublications(AbsCatalog(), from, limit) == Some(page)
    {
      hide PublicationIndex.ListsInv, ReadRange, Valid;
      ListsAreConsistent();
      var start := Min(from.GetOr(0), publicationCount);
      var end := Min(start + Min(limit.GetOr(50), 100), publicationCount);
      page := [];
      ghost var c := AbsCatalog();
      PublicationIndex.RangeSize(c, start, end);
      ghost var all := ReadRange(c, start, end).value;
      for i := start to end
        invariant page == all[..i - start]
      {
        PublicationIndex.RangeAt(c, start, end, i - start);
        page := page + [publications[publicationIds[i]]];
      }
      assert page == all;
    }

    // -------------------------------------------------------------- purchase, watching

    method BuyTicket(now: nat, caller: AccountId, amount: nat, p: Purchase, runwayOk: bool) returns (ok: bool, unused: nat)
      modifies `tickets, `escrowBalance, `received
      ensures var sale := old(Buy(AbsLedger(), AbsCatalog(), AbsGov(), now, amount, p, runwayOk));
              && ok == sale.Some?
              && AbsLedger() == if ok && sale.value.Sold? then sale.value.ledger else old(AbsLedger())
      ensures unused + received == amount + old(received)
    {
      unused := amount;
      if !p.wellFormed || !InTime(p.deviceExpires, now, SIGNATURE_TTL_MS) || !InTime(p.vatExpires, now, SIGNATURE_TTL_MS) {
        return false, amount;
      }
      if p.vat > U128_MAX || p.vatKeyVersion > U32_MAX { return false, amount; }
      if purchasesPaused { return true, amount; }
      if p.publicationId !in publications { return false, amount; }
      var publication := publications[p.publicationId];
      if publication.availability != Active || amount != publication.price || p.ticketId in tickets { return true, amount; }
      if !p.deviceSigOk || p.vatKeyVersion !in vatKeys || !p.vatSigOk { return false, amount; }
      var split := SplitTicket(amount, p.vat);
      if split.None? || now + DEVICE_LIFETIME_MS > U64_MAX || escrowBalance + amount > U128_MAX || !runwayOk { return false, amount; }
      tickets := tickets[p.ticketId := Ticket(p.ticketKey, p.publicationId, publication.creator, Crypto, Purchased, amount, split.value,
                                              p.vatKeyVersion, now, 0, [NewDevice(p.deviceKey, p.certificate, now)], None)];
      escrowBalance := escrowBalance + amount;
      received := received + amount;
      return true, 0;
    }

    method MarkWatched(now: nat, caller: AccountId, id: Id) returns (ok: bool, first: bool)
      modifies `tickets
      ensures Outcome(old(AbsLedger()), AbsLedger(), old(Accounts.MarkWatched(AbsLedger(), AbsCatalog(), AbsGov(), caller, id)), ok)
      ensures first ==> ok && id in old(tickets) && old(tickets)[id].status.Purchased?
    {
      if caller != bridge || bridgeFrozen || id !in tickets { return false, false; }
      var t := tickets[id];
      match t.status {
        case Watched => return true, false;
        case WatchedInEscrow => return true, false;
        case Released => return true, false;
        case Refunded => return false, false;
        case Voided => return false, false;
        case Purchased =>
      }
      if t.publicationId !in publications || publications[t.publicationId].availability == Takedown { return false, false; }
      tickets := tickets[id := t.(status := if t.rail.Crypto? then WatchedInEscrow else Watched)];
      return true, true;
    }

    // -------------------------------------------------------------- refund, release

    predicate IsTakenDown(publicationId: Id)
      reads this
    {
      publicationId in publications && publications[publicationId].availability == Takedown
    }

    /** `ft_transfer` and its callback promise. */
    method StartTransfer(purpose: Purpose, receiver: AccountId, amount: nat)
      modifies `transfers
      ensures transfers == old(transfers) + [Transfer(purpose, receiver, amount, Pending)]
    {
      transfers := transfers + [Transfer(purpose, receiver, amount, Pending)];
    }

    method RefundTicket(now: nat, caller: AccountId, id: Id, refundTo: AccountId, expires: nat, sigOk: bool) returns (ok: bool)
      modifies `tickets, `escrowBalance, `transfers
      ensures Outcome(old(AbsLedger()), AbsLedger(), old(Refund(AbsLedger(), AbsCatalog(), AbsGov(), now, caller, id, refundTo, expires, sigOk)), ok)
    {
      if id !in tickets { return false; }
      var t := tickets[id];
      if !t.rail.Crypto? || !(t.status.Purchased? || t.status.WatchedInEscrow?) { return false; }
      var takenDown := IsTakenDown(t.publicationId);
      if !takenDown {
        if caller != operator || purchasesPaused { return false; }
        if t.purchasedAt + ESCROW_MS > U64_MAX || now >= t.purchasedAt + ESCROW_MS { return false; }
      }
      if !InTime(expires, now, REFUND_SIGNATURE_TTL_MS) || !sigOk || escrowBalance < t.gross { return false; }
      tickets := tickets[id := t.(status := Refunded)];
      escrowBalance := escrowBalance - t.gross;
      StartTransfer(TicketRefund(id, t.status), refundTo, t.gross);
      return true;
    }

    /** `settle_ticket`; after a failed addition the caller's panic takes the earlier writes back. */
    method SettleTicket(t: Ticket) returns (ok: bool)
      modifies `escrowBalance, `taxBalance, `platformBalance, `creatorBalances
      ensures ok <==> t.gross <= old(escrowBalance) && old(taxBalance) + t.split.vat <= U128_MAX
                      && old(platformBalance) + t.split.platform <= U128_MAX
                      && Lookup(old(creatorBalances), t.creator) + t.split.creator <= U128_MAX
      ensures ok ==> escrowBalance == old(escrowBalance) - t.gross && taxBalance == old(taxBalance) + t.split.vat
                     && platformBalance == old(platformBalance) + t.split.platform
                     && creatorBalances == old(creatorBalances)[t.creator := Lookup(old(creatorBalances), t.creator) + t.split.creator]
    {
      if escrowBalance < t.gross { return false; }
      escrowBalance := escrowBalance - t.gross;
      if taxBalance + t.split.vat > U128_MAX { return false; }
      taxBalance := taxBalance + t.split.vat;
      if platformBalance + t.split.platform > U128_MAX { return false; }
      platformBalance := platformBalance + t.split.platform;
      var balance := Lookup(creatorBalances, t.creator) + t.split.creator;
      if balance > U128_MAX { return false; }
      creatorBalances := creatorBalances[t.creator := balance];
      return true;
    }

    /** One turn of the loop in `release_expired`. */
    method ReleaseTicket(now: nat, id: Id) returns (ok: bool, did: bool)
      modifies `tickets, `escrowBalance, `taxBalance, `platformBalance, `creatorBalances
      ensures ok == old(ReleaseOne(AbsLedger(), AbsCatalog(), now, id)).Some?
      ensures ok ==> AbsLedger() == old(ReleaseOne(AbsLedger(), AbsCatalog(), now, id)).value
      ensures ok ==> did == (id in old(tickets) && old(ReleaseOpen(tickets[id], AbsCatalog(), now)))
    {
      if id !in tickets { return true, false; }
      var t := tickets[id];
      if t.purchasedAt + ESCROW_MS > U64_MAX { return false, false; }
      if !(t.status.Purchased? || t.status.WatchedInEscrow?) || !t.rail.Crypto? || now < t.purchasedAt + ESCROW_MS
         || IsTakenDown(t.publicationId) {
        return true, false;
      }
      tickets := tickets[id := t.(status := Released)];
      did := true;
      ok := SettleTicket(t);
    }

    method ReleaseEach(now: nat, ids: seq<Id>) returns (ok: bool, released: nat)
      modifies `tickets, `escrowBalance, `taxBalance, `platformBalance, `creatorBalances
      ensures ok == old(ReleaseAll(AbsLedger(), AbsCatalog(), now, ids)).Some?
      ensures ok ==> AbsLedger() == old(ReleaseAll(AbsLedger(), AbsCatalog(), now, ids)).value
      ensures ok ==> released == old(|Eligible(tickets, AbsCatalog(), now, ids)|)
    {
      hide ReleaseOne, ReleaseOpen, Eligible, ReleaseAll;
      ghost var l, c := AbsLedger(), AbsCatalog();
      ok, released := true, 0;
      var k := 0;
      ReleaseStart(l, c, now, ids);
      while ok && k < |ids|
        invariant 0 <= k <= |ids|
        invariant AbsCatalog() == c
        invariant ok ==> ReleaseAll(l, c, now, ids[..k]) == Some(AbsLedger())
        invariant ok ==> released == |Eligible(l.tickets, c, now, ids[..k])|
        invariant !ok ==> ReleaseAll(l, c, now, ids).None?
      {
        ReleaseNext(l, c, now, ids, k);
        EligibleNext(l.tickets, c, now, ids, k);
        var did;
        ok, did := ReleaseTicket(now, ids[k]);
        if did {
          released := released + 1;
        }
        k := k + 1;
      }
      assert ids[..|ids|] == ids;
    }

    method ReleaseExpired(now: nat, caller: AccountId, ids: seq<Id>, runwayOk: bool) returns (ok: bool, released: nat)
      modifies `tickets, `escrowBalance, `taxBalance, `platformBalance, `creatorBalances
      ensures Outcome(old(AbsLedger()), AbsLedger(), old(Release(AbsLedger(), AbsCatalog(), now, ids, runwayOk)), ok)
      ensures ok ==> released == old(|Eligible(tickets, AbsCatalog(), now, ids)|)
    {
      hide Eligible, ReleaseAll;
      if ids == [] || |ids| > MAX_RELEASE_BATCH { return false, 0; }
      var tickets0, escrow0, tax0, platform0, creators0 := tickets, escrowBalance, taxBalance, platformBalance, creatorBalances;
      ghost var l, c := AbsLedger(), AbsCatalog();
      ok, released := ReleaseEach(now, ids);
      if ok {
        ReleasedIffEligible(l, c, now, ids);
      }
      if !ok || (released > 0 && !runwayOk) {
        tickets, escrowBalance, taxBalance, platformBalance, creatorBalances := tickets0, escrow0, tax0, platform0, creators0;
        return false, 0;
      }
    }

    // -------------------------------------------------------------- devices

    predicate IsPlayable(id: Id)
      reads this
    {
      id in tickets
      && var t := tickets[id];
      && (t.status.Purchased? || t.status.Watched? || t.status.WatchedInEscrow? || t.status.Released?)
      && t.publicationId in publications && publications[t.publicationId].availability != Takedown
    }

    method AddDevice(now: nat, caller: AccountId, id: Id, key: string, certificate: string, epoch: nat, expires: nat,
                     wellFormed: bool, sigOk: bool, runwayOk: bool) returns (ok: bool)
      modifies `tickets
      ensures Outcome(old(AbsLedger()), AbsLedger(), old(Accounts.AddDevice(AbsLedger(), AbsCatalog(), now, id, key, certificate, epoch, expires, wellFormed, sigOk, runwayOk)), ok)
    {
      if !IsPlayable(id) || !wellFormed || !InTime(expires, now, SIGNATURE_TTL_MS) || !sigOk { return false; }
      var t := tickets[id];
      if epoch != t.deviceEpoch { return false; }
      var devices, deviceEpoch := Live(t.devices, now, key), t.deviceEpoch;
      if |devices| == MAX_DEVICES {
        devices := devices[1..];
        if deviceEpoch == U32_MAX { return false; }
        deviceEpoch := deviceEpoch + 1;
      }
      if now + DEVICE_LIFETIME_MS > U64_MAX { return false; }
      devices := devices + [Device(key, certificate, now, now + DEVICE_LIFETIME_MS)];
      if !runwayOk { return false; }
      tickets := tickets[id := t.(devices := devices, deviceEpoch := deviceEpoch)];
      return true;
    }

    /** `revoke_ticket_device` */
    method RevokeTicketDevice(id: Id, key: string) returns (ok: bool)
      requires id in tickets
      modifies `tickets
      ensures ok == WithoutDevice(old(tickets)[id], key).Some?
      ensures tickets == if ok then old(tickets)[id := WithoutDevice(old(tickets)[id], key).value] else old(tickets)
    {
      var t := tickets[id];
      if t.deviceEpoch == U32_MAX { return false; }
      tickets := tickets[id := t.(devices := Without(t.devices, key), deviceEpoch := t.deviceEpoch + 1)];
      return true;
    }

    method RevokeDevice(now: nat, caller: AccountId, id: Id, key: string, epoch: nat, expires: nat, wellFormed: bool, sigOk: bool)
      returns (ok: bool)
      modifies `tickets
      ensures Outcome(old(AbsLedger()), AbsLedger(), old(Accounts.RevokeDevice(AbsLedger(), now, id, key, epoch, expires, wellFormed, sigOk)), ok)
    {
      if id !in tickets || !wellFormed || !InTime(expires, now, SIGNATURE_TTL_MS) || !sigOk { return false; }
      if epoch != tickets[id].deviceEpoch { return false; }
      ok := RevokeTicketDevice(id, key);
    }

    method PlatformRevokeDevice(now: nat, caller: AccountId, id: Id, key: string, wellFormed: bool) returns (ok: bool)
      modifies `tickets
      ensures Outcome(old(AbsLedger()), AbsLedger(), old(Accounts.PlatformRevokeDevice(AbsLedger(), AbsGov(), caller, id, key, wellFormed)), ok)
    {
      if caller != platform || id !in tickets || !wellFormed { return false; }
      ok := RevokeTicketDevice(id, key);
    }

    // -------------------------------------------------------------- card tickets

    method IssueCardTicket(now: nat, caller: AccountId, o: CardOrder, deposit: nat, headroomOk: bool) returns (ok: bool)
      modifies `tickets, `cardReferences
      ensures Outcome(old(AbsLedger()), AbsLedger(), old(IssueCard(AbsLedger(), AbsCatalog(), AbsGov(), now, caller, o, deposit, headroomOk)), ok)
    {
      if caller != operator || deposit != 0 || purchasesPaused || !o.wellFormed || o.card.grossMinor == 0 { return false; }
      if !InTime(o.deviceExpires, now, SIGNATURE_TTL_MS) || o.publicationId !in publications { return false; }
      var publication := publications[o.publicationId];
      if publication.availability != Active || o.ticketId in tickets || o.card.reference in cardReferences || !o.sigOk { return false; }
      if now + DEVICE_LIFETIME_MS > U64_MAX || !headroomOk { return false; }
      tickets := tickets[o.ticketId := Ticket(o.ticketKey, o.publicationId, publication.creator, Card, Purchased, 0, Split(0, 0, 0), 0,
                                              now, 0, [NewDevice(o.deviceKey, o.certificate, now)], Some(o.card))];
      cardReferences := cardReferences + {o.card.reference};
      return true;
    }

    method VoidCardTicket(now: nat, caller: AccountId, id: Id, reasonOk: bool) returns (ok: bool)
      modifies `tickets
      ensures Outcome(old(AbsLedger()), AbsLedger(), old(VoidCard(AbsLedger(), AbsGov(), caller, id, reasonOk)), ok)
    {
      if caller != operator || purchasesPaused || !reasonOk || id !in tickets { return false; }
      var t := tickets[id];
      if !t.rail.Card? || !(t.status.Purchased? || t.status.Watched?) { return false; }
      tickets := tickets[id := t.(status := Voided, devices := [])];
      return true;
    }

    // -------------------------------------------------------------- payouts and their callbacks

    method WithdrawCreatorBalance(now: nat, caller: AccountId) returns (ok: bool)
      modifies `creatorBalances, `transfers
      ensures Outcome(old(AbsLedger()), AbsLedger(), old(WithdrawCreator(AbsLedger(), caller)), ok)
    {
      var amount := Lookup(creatorBalances, caller);
      if amount == 0 { return false; }
      creatorBalances := creatorBalances[caller := 0];
      StartTransfer(CreatorPayout(caller), caller, amount);
      return true;
    }

    method WithdrawPlatformBalance(now: nat, caller: AccountId) returns (ok: bool)
      modifies `platformBalance, `transfers
      ensures Outcome(old(AbsLedger()), AbsLedger(), old(WithdrawPlatform(AbsLedger(), AbsGov(), caller)), ok)
    {
      if caller != platform || platformBalance == 0 { return false; }
      var amount := platformBalance;
      platformBalance := 0;
      StartTransfer(PlatformPayout, platform, amount);
      return true;
    }

    method WithdrawTaxBalance(now: nat, caller: AccountId) returns (ok: bool)
      modifies `taxBalance, `transfers
      ensures Outcome(old(AbsLedger()), AbsLedger(), old(WithdrawTax(AbsLedger(), AbsGov(), caller)), ok)
    {
      if (caller != tax && caller != platform) || taxBalance == 0 { return false; }
      var amount := taxBalance;
      taxBalance := 0;
      StartTransfer(TaxPayout, tax, amount);
      return true;
    }

    method WithdrawPlatformNear(now: nat, caller: AccountId, amount: nat, liquid: nat) returns (ok: bool)
      modifies `platformNearBalance, `transfers
      ensures Outcome(old(AbsLedger()), AbsLedger(), old(WithdrawNear(AbsLedger(), AbsGov(), caller, amount, liquid)), ok)
    {
      if caller != platform || amount == 0 || amount > platformNearBalance || amount > liquid { return false; }
      platformNearBalance := platformNearBalance - amount;
      StartTransfer(NearPayout, platform, amount);
      return true;
    }

    /** The host's record of how a transfer ended. */
    method CloseTransfer(i: nat, fate: Fate)
      requires i < |transfers|
      modifies `transfers
      ensures transfers == old(transfers)[i := old(transfers)[i].(fate := fate)]
    {
      transfers := transfers[i := transfers[i].(fate := fate)];
    }

    method OnCreatorWithdraw(i: nat, success: bool)
      requires i < |transfers| && transfers[i].fate.Pending? && transfers[i].purpose.CreatorPayout?
      modifies `creatorBalances, `transfers
      ensures Some(AbsLedger()) == old(Resolve(AbsLedger(), i, success))
    {
      var creator, amount := transfers[i].purpose.creator, transfers[i].amount;
      if success {
        CloseTransfer(i, Paid);
        return;
      }
      var restored := Lookup(creatorBalances, creator) + amount;
      if restored > U128_MAX {
        CloseTransfer(i, Lost);
        return;
      }
      creatorBalances := creatorBalances[creator := restored];
      CloseTransfer(i, Returned);
    }

    method OnPlatformWithdraw(i: nat, success: bool)
      requires i < |transfers| && transfers[i].fate.Pending? && transfers[i].purpose.PlatformPayout?
      modifies `platformBalance, `transfers
      ensures Some(AbsLedger()) == old(Resolve(AbsLedger(), i, success))
    {
      if success {
        CloseTransfer(i, Paid);
      } else if platformBalance + transfers[i].amount > U128_MAX {
        CloseTransfer(i, Lost);
      } else {
        platformBalance := platformBalance + transfers[i].amount;
        CloseTransfer(i, Returned);
      }
    }

    method OnTaxWithdraw(i: nat, success: bool)
      requires i < |transfers| && transfers[i].fate.Pending? && transfers[i].purpose.TaxPayout?
      modifies `taxBalance, `transfers
      ensures Some(AbsLedger()) == old(Resolve(AbsLedger(), i, success))
    {
      if success {
        CloseTransfer(i, Paid);
      } else if taxBalance + transfers[i].amount > U128_MAX {
        CloseTransfer(i, Lost);
      } else {
        taxBalance := taxBalance + transfers[i].amount;
        CloseTransfer(i, Returned);
      }
    }

    method OnPlatformNearWithdraw(i: nat, success: bool)
      requires i < |transfers| && transfers[i].fate.Pending? && transfers[i].purpose.NearPayout?
      modifies `platformNearBalance, `transfers
      ensures Some(AbsLedger()) == old(Resolve(AbsLedger(), i, success))
    {
      if success {
        CloseTransfer(i, Paid);
      } else if platformNearBalance + transfers[i].amount > U128_MAX {
        CloseTransfer(i, Lost);
      } else {
        platformNearBalance := platformNearBalance + transfers[i].amount;
        CloseTransfer(i, Returned);
      }
    }

    method OnTicketRefund(i: nat, success: bool)
      requires i < |transfers| && transfers[i].fate.Pending? && transfers[i].purpose.TicketRefund?
      modifies `tickets, `escrowBalance, `transfers
      ensures Some(AbsLedger()) == old(Resolve(AbsLedger(), i, success))
    {
      var id, restore, amount := transfers[i].purpose.ticketId, transfers[i].purpose.restore, transfers[i].amount;
      if id !in tickets {
        CloseTransfer(i, if success then Paid else Lost);
        return;
      }
      var t := tickets[id];
      if success {
        tickets := tickets[id := t.(devices := [])];
        CloseTransfer(i, Paid);
      } else if escrowBalance + amount > U128_MAX {
        CloseTransfer(i, Lost);
      } else {
        tickets := tickets[id := t.(status := restore)];
        escrowBalance := escrowBalance + amount;
        CloseTransfer(i, Returned);
      }
    }

    // -------------------------------------------------------------- the host's dispatcher

    method Govern(now: nat, caller: AccountId, order: GovOp) returns (ok: bool)
      modifies `admin, `guardian, `platform, `takedownAuthority, `operator, `bridge, `pendingBridge, `bridgeProposedAt, `bridgeFrozen,
               `unfreezeRequest, `purchasesPaused, `unpauseRequest, `rotations, `vatKeys
      ensures Outcome(old(AbsGov()), AbsGov(), old(ApplyGov(AbsGov(), now, caller, order)), ok)
    {
      hide AbsGov, Outcome, Close, RequestReopen, CancelReopen, Reopen, CloseBeta, ProposeBridge, CancelBridge, ExecuteBridge, ProposeRole, CancelRole, ExecuteRole,
        Rules.RevokeVatKey;
      match order {
        case Closing(which) => if which.Bridge? { ok := FreezeBridge(now, caller); } else { ok := PauseNewPurchases(now, caller); }
        case ReopenRequest(which) =>
          var at;
          if which.Bridge? { ok, at := RequestBridgeUnfreeze(now, caller); } else { ok, at := RequestNewPurchasesUnpause(now, caller); }
        case ReopenCancellation(which) =>
          if which.Bridge? { ok := CancelBridgeUnfreeze(now, caller); } else { ok := CancelNewPurchasesUnpause(now, caller); }
        case Reopening(which) => if which.Bridge? { ok := UnfreezeBridge(now, caller); } else { ok := UnpauseNewPurchases(now, caller); }
        case BetaClosing(started, open) => ok := ClosePublicTestnetBeta(now, caller, started, open);
        case BridgeProposal(next) => ok := ProposeBridgeRotation(now, caller, next);
        case BridgeCancellation => ok := CancelBridgeRotation(now, caller);
        case BridgeExecution => ok := ExecuteBridgeRotation(now, caller);
        case RoleProposal(role, next) => ok := ProposeRoleRotation(now, caller, role, next);
        case RoleCancellation(role) => ok := CancelRoleRotation(now, caller, role);
        case RoleExecution(role) => ok := ExecuteRoleRotation(now, caller, role);
        case VatKeyRevocation(version) => ok := RevokeVatKey(now, caller, version);
      }
    }

    method ManageLibrary(now: nat, caller: AccountId, entry: CatalogOp) returns (ok: bool)
      modifies `policy, `jobs, `publications, `assetBindings, `playbackBindings, `takedowns, `publicationIds, `publicationCount, `uploads
      ensures Outcome(old(AbsCatalog()), AbsCatalog(), old(ApplyCatalog(AbsCatalog(), AbsGov(), now, caller, entry)), ok)
    {
      hide AbsGov, AbsCatalog, Outcome, Index.ReplaceUploadKey, RestartJob, Finalize, Index.SuspendSales, TakeDown, SetFullHd;
      match entry {
        case KeyReplacement(jobId, key, expires, wellFormed) => ok := ReplaceUploadKey(now, caller, jobId, key, expires, wellFormed);
        case JobRestart(jobId, sourceBytes, profile, wellFormed) => ok := RestartPaidJob(now, caller, jobId, sourceBytes, profile, wellFormed);
        case Finalization(submission) => ok := FinalizePublication(now, caller, submission);
        case SalesSuspension(id) => ok := SuspendSales(now, caller, id);
        case TakedownOrder(id, record, wellFormed) => ok := TakedownPublication(now, caller, id, record, wellFormed);
        case ProfileChoice(enabled, runwayOk) => ok := SetPublicUploadFullHd(now, caller, enabled, runwayOk);
      }
    }

    /** The callback of transfer `i`, which the host runs once its outcome is known. */
    method Callback(i: nat, success: bool) returns (ok: bool)
      modifies `tickets, `cardReferences, `escrowBalance, `taxBalance, `platformBalance, `creatorBalances, `platformNearBalance,
               `transfers, `received, `fees, `nearFees
      ensures Outcome(old(AbsLedger()), AbsLedger(), old(Resolve(AbsLedger(), i, success)), ok)
    {
      if i >= |transfers| || transfers[i].fate != Pending { return false; }
      ok := true;
      hide Restore, Complete;
      match transfers[i].purpose {
        case CreatorPayout(_) => OnCreatorWithdraw(i, success);
        case PlatformPayout => OnPlatformWithdraw(i, success);
        case TaxPayout => OnTaxWithdraw(i, success);
        case NearPayout => OnPlatformNearWithdraw(i, success);
        case TicketRefund(_, _) => OnTicketRefund(i, success);
      }
    }

    method Trade(now: nat, caller: AccountId, deal: LedgerOp) returns (ok: bool)
      modifies `tickets, `cardReferences, `escrowBalance, `taxBalance, `platformBalance, `creatorBalances, `platformNearBalance,
               `transfers, `received, `fees, `nearFees
      ensures Outcome(old(AbsLedger()), AbsLedger(), old(ApplyLedger(AbsLedger(), AbsCatalog(), AbsGov(), now, caller, deal)), ok)
    {
      hide AbsGov, AbsCatalog, AbsLedger, Buy, Accounts.MarkWatched, Refund, Release, Accounts.AddDevice, Accounts.RevokeDevice, Accounts.PlatformRevokeDevice,
        IssueCard, VoidCard, WithdrawCreator, WithdrawPlatform, WithdrawTax, WithdrawNear, Resolve;
      match deal {
        case Buying(amount, purchase, runwayOk) => var unused; ok, unused := BuyTicket(now, caller, amount, purchase, runwayOk);
        case Watching(id) => var first; ok, first := MarkWatched(now, caller, id);
        case Refunding(id, refundTo, expires, sigOk) => ok := RefundTicket(now, caller, id, refundTo, expires, sigOk);
        case Releasing(ids, runwayOk) => var released; ok, released := ReleaseExpired(now, caller, ids, runwayOk);
        case DeviceAddition(id, key, certificate, epoch, expires, wellFormed, sigOk, runwayOk) =>
          ok := AddDevice(now, caller, id, key, certificate, epoch, expires, wellFormed, sigOk, runwayOk);
        case DeviceRevocation(id, key, epoch, expires, wellFormed, sigOk) => ok := RevokeDevice(now, caller, id, key, epoch, expires, wellFormed, sigOk);
        case PlatformRevocation(id, key, wellFormed) => ok := PlatformRevokeDevice(now, caller, id, key, wellFormed);
        case CardIssue(order, deposit, headroomOk) => ok := IssueCardTicket(now, caller, order, deposit, headroomOk);
        case CardVoiding(id, reasonOk) => ok := VoidCardTicket(now, caller, id, reasonOk);
        case CreatorWithdrawal => ok := WithdrawCreatorBalance(now, caller);
        case PlatformWithdrawal => ok := WithdrawPlatformBalance(now, caller);
        case TaxWithdrawal => ok := WithdrawTaxBalance(now, caller);
        case NearWithdrawal(amount, liquid) => ok := WithdrawPlatformNear(now, caller, amount, liquid);
        case Resolution(i, success) => ok := Callback(i, success);
      }
    }

    /** A funding call, as the state machine takes it. */
    method Fund(now: nat, caller: AccountId, op: Op) returns (ok: bool)
      requires op.JobFunding? || op.NearJobFunding?
      modifies `jobs, `uploads, `platformBalance, `platformNearBalance, `received, `fees, `nearFees
      ensures Outcome(old(Abs()), Abs(), old(Apply(Abs(), now, caller, op)), ok)
    {
      hide AbsGov, AbsCatalog, AbsLedger, FundJob, FundJobNear, CreditFee, CreditNearFee;
      match op {
        case JobFunding(amount, request, quote, quoteOk, runwayOk) =>
          var unused; ok, unused := CreatePaidJob(now, caller, amount, request, quote, quoteOk, runwayOk);
        case NearJobFunding(deposit, request, quote, nearUsd, quoteOk) =>
          ok := CreatePaidJobNear(now, caller, deposit, request, quote, nearUsd, quoteOk);
      }
    }

    method Perform(step: Step) returns (ok: bool)
      modifies this
      ensures Outcome(old(Abs()), Abs(), old(Apply(Abs(), step.now, step.caller, step.op)), ok) && run == old(run)
    {
      hide AbsGov, AbsCatalog, AbsLedger, ApplyGov, ApplyCatalog, ApplyLedger, Funded, FundJob, FundJobNear, CreditFee, CreditNearFee;
      var now, caller := step.now, step.caller;
      match step.op {
        case Governing(order) => ok := Govern(now, caller, order);
        case Cataloguing(entry) => ok := ManageLibrary(now, caller, entry);
        case Trading(deal) => ok := Trade(now, caller, deal);
        case JobFunding(_, _, _, _, _) => ok := Fund(now, caller, step.op);
        case NearJobFunding(_, _, _, _, _) => ok := Fund(now, caller, step.op);
      }
    }

    /**
     What the theorems about runs say of the object itself: its fields account for every token kept,
     its escrow is the sum over its own tickets in escrow, each ticket is covered, and its
     authorities are apart.
     */
    lemma FieldsAccountForEverything(id: Id)
      requires Valid()
      ensures received == escrowBalance + taxBalance + platformBalance + Sum(creatorBalances, Books.Itself())
                          + Total(transfers, Books.WithFate(Pending)) + Total(transfers, Books.WithFate(Paid)) + Total(transfers, Books.WithFate(Lost))
      ensures escrowBalance == Sum(tickets, Books.ShareOf(Books.Escrow))
      ensures id in tickets && InEscrow(tickets[id]) ==> tickets[id].gross <= escrowBalance
      ensures Separated(Roles(admin, guardian, platform, takedownAuthority, operator, tax, bridge))
    {
      var i := |run.steps|;
      assert run.states[i].ledger == AbsLedger() && run.states[i].gov == AbsGov();
      hide Runs.Valid;
      Conservation(run, i);
      ReceivedIsKept(run, i);
      EscrowIsTheTicketsInIt(run, i, id);
      Authorities.AuthoritiesStayApart(run, i);
    }

    /**
     Any call or callback at a block time that does not go back: the object moves to the next state
     of its run, so that what is proved of every run holds of the object after any history of calls.
     */
    method Execute(step: Step) returns (ok: bool)
      requires Valid() && Time(run, |run.steps|) <= step.now
      modifies this
      ensures Valid() && run.steps == old(run.steps) + [step] && old(run.states) <= run.states
      ensures ok == old(Apply(Abs(), step.now, step.caller, step.op)).Some?
    {
      hide Apply, Initial;
      ok := Perform(step);
      RunGrows(run, step);
      run := Run(run.states + [Abs()], run.steps + [step]);
    }
  }
}
