/**
 The whole market as a state machine: one call or callback at a time, in any order, at block
 times that never go backwards. A call that panics changes nothing.
 */
module Runs {
  import opened Common
  import opened Sums
  import opened Governance
  import opened Catalog
  import opened PublicationIndex
  import opened Admission
  import opened Ledger
  import opened LedgerSteps
  import opened Releases

  datatype State = State(gov: Gov, catalog: Catalog, ledger: Ledger)

  datatype Op =
    | Governing(order: GovOp)
    | Cataloguing(entry: CatalogOp)
    | Trading(deal: LedgerOp)
    | JobFunding(amount: nat, request: JobRequest, quote: Option<string>, quoteOk: bool, runwayOk: bool)
    | NearJobFunding(deposit: nat, request: JobRequest, nearQuote: string, nearUsd: nat, quoteOk: bool)

  datatype Step = Step(now: nat, caller: AccountId, op: Op)

  /** `new` and `new_public_testnet`. */
  function Create(config: Config, publicTestnet: bool): Option<State> {
    var g := Governance.Create(config);
    if g.None? || (publicTestnet && config.mainnet) then None
    else
      var gov := if publicTestnet then g.value.(freeze := Latch(true, None), pause := Latch(true, None)) else g.value;
      Some(State(gov, EmptyCatalog(publicTestnet), EMPTY_LEDGER))
  }

  /** A job is created together with its credited fee, or nothing happens. */
  function Funded(s: State, f: Option<Funding>, credited: Option<Ledger>): Option<State> {
    if f.None? then None
    else if f.value.AllReturned? then Some(s)
    else if credited.None? then None
    else Some(s.(catalog := f.value.catalog, ledger := credited.value))
  }

  function Apply(s: State, now: nat, caller: AccountId, op: Op): Option<State> {
    match op
    case Governing(order) =>
      var g := ApplyGov(s.gov, now, caller, order);
      if g.None? then None else Some(s.(gov := g.value))
    case Cataloguing(entry) =>
      var c := ApplyCatalog(s.catalog, s.gov, now, caller, entry);
      if c.None? then None else Some(s.(catalog := c.value))
    case Trading(deal) =>
      var l := ApplyLedger(s.ledger, s.catalog, s.gov, now, caller, deal);
      if l.None? then None else Some(s.(ledger := l.value))
    case JobFunding(amount, request, quote, quoteOk, runwayOk) =>
      Funded(s, FundJob(s.catalog, s.gov, now, amount, request, quote, quoteOk, runwayOk), CreditFee(s.ledger, amount))
    case NearJobFunding(deposit, request, quote, nearUsd, quoteOk) =>
      Funded(s, FundJobNear(s.catalog, s.gov, now, caller, deposit, request, quote, nearUsd, quoteOk), CreditNearFee(s.ledger, deposit))
  }

  function Next(s: State, step: Step): State {
    Apply(s, step.now, step.caller, step.op).GetOr(s)
  }

  /** A run from a newly created market. */
  datatype Run = Run(states: seq<State>, steps: seq<Step>)

  ghost predicate Initial(s: State) {
    exists config, publicTestnet :: Create(config, publicTestnet) == Some(s)
  }

  ghost predicate Valid(r: Run) {
    && |r.states| == |r.steps| + 1
    && Initial(r.states[0])
    && (forall i {:trigger r.states[i + 1]} {:trigger r.steps[i]} | 0 <= i < |r.steps| :: r.states[i + 1] == Next(r.states[i], r.steps[i]))
    && (forall i, j {:trigger r.steps[i], r.steps[j]} | 0 <= i < j < |r.steps| :: r.steps[i].now <= r.steps[j].now)
  }

  /** The block time of the latest call made before state `i`. */
  function Time(r: Run, i: nat): nat
    requires i <= |r.steps|
  {
    if i == 0 then 0 else r.steps[i - 1].now
  }

  // ---------------------------------------------------------------- the invariant

  function UsdcFee(): Job -> nat { (j: Job) => if j.feeAsset.Usdc? then j.feeAmount else 0 }

  function NearFeeOf(): Job -> nat { (j: Job) => if j.feeAsset.Near? then j.feeAmount else 0 }

  /** The credited fees are the fees recorded in the jobs. */
  ghost predicate FeesInv(jobs: map<Id, Job>, l: Ledger) {
    l.fees == Sum(jobs, UsdcFee()) && l.nearFees == Sum(jobs, NearFeeOf())
  }

  ghost predicate Inv(s: State, now: nat) {
    && GovInv(s.gov)
    && IndexInv(s.catalog)
    && AdmissionInv(s.catalog, now)
    && LedgerInv(s.ledger, s.catalog.publications, now)
    && FeesInv(s.catalog.jobs, s.ledger)
  }

  // ---------------------------------------------------------------- steps keep it

  lemma EmptyAdmission(publicTestnet: bool)
    ensures AdmissionInv(EmptyCatalog(publicTestnet), 0)
  {
  }

  lemma EmptyFees(publicTestnet: bool)
    ensures FeesInv(EmptyCatalog(publicTestnet).jobs, EMPTY_LEDGER)
    ensures EmptyCatalog(publicTestnet).publications == map[]
  {
  }

  lemma InitialGov(config: Config, publicTestnet: bool)
    requires Create(config, publicTestnet).Some?
    ensures GovInv(Create(config, publicTestnet).value.gov)
  {
  }

  lemma InitialInv(config: Config, publicTestnet: bool)
    requires Create(config, publicTestnet).Some?
    ensures Inv(Create(config, publicTestnet).value, 0)
  {
    var s := Create(config, publicTestnet).value;
    assert s.catalog == EmptyCatalog(publicTestnet) && s.ledger == EMPTY_LEDGER;
    EmptyIndex(publicTestnet);
    EmptyLedgerInv(s.ledger, 0);
    EmptyAdmission(publicTestnet);
    EmptyFees(publicTestnet);
    InitialGov(config, publicTestnet);
  }

  lemma TimeKeepsInv(s: State, now: nat, later: nat)
    requires Inv(s, now) && now <= later
    ensures Inv(s, later)
  {
    hide GovInv, IndexInv, AdmissionInv, LedgerInv, FeesInv, Keeps;
    TimePasses(s.catalog, now, later);
    KeepsItself(s.catalog.publications);
    LedgerAges(s.ledger, s.catalog.publications, s.catalog.publications, now, later);
  }

  lemma LedgerInvLater(s: State, now: nat, later: nat)
    requires Inv(s, now) && now <= later
    ensures LedgerInv(s.ledger, s.catalog.publications, later)
  {
    hide GovInv, IndexInv, AdmissionInv, LedgerInv, FeesInv;
    TimeKeepsInv(s, now, later);
  }

  /** Rewriting a job never changes what it paid. */
  lemma CatalogStepKeepsFees(c: Catalog, g: Gov, now: nat, caller: AccountId, entry: CatalogOp, l: Ledger)
    requires FeesInv(c.jobs, l) && ApplyCatalog(c, g, now, caller, entry).Some?
    ensures FeesInv(ApplyCatalog(c, g, now, caller, entry).value.jobs, l)
  {
    var n := ApplyCatalog(c, g, now, caller, entry).value;
    if n.jobs != c.jobs {
      var id := if entry.Finalization? then entry.submission.jobId else entry.jobId;
      SumUpdate(c.jobs, UsdcFee(), id, n.jobs[id]);
      SumUpdate(c.jobs, NearFeeOf(), id, n.jobs[id]);
    }
  }

  lemma LedgerStepKeepsFees(l: Ledger, c: Catalog, g: Gov, now: nat, caller: AccountId, deal: LedgerOp)
    requires ApplyLedger(l, c, g, now, caller, deal).Some?
    ensures ApplyLedger(l, c, g, now, caller, deal).value.fees == l.fees
    ensures ApplyLedger(l, c, g, now, caller, deal).value.nearFees == l.nearFees
  {
    if deal.Releasing? {
      ReleaseAllFrame(l, c, now, deal.ids);
    }
  }

  lemma FeesKeepLedger(l: Ledger, publications: map<Id, Publication>, now: nat, amount: nat)
    requires LedgerInv(l, publications, now)
    ensures CreditFee(l, amount).Some? ==> LedgerInv(CreditFee(l, amount).value, publications, now)
    ensures CreditNearFee(l, amount).Some? ==> LedgerInv(CreditNearFee(l, amount).value, publications, now)
  {
    Books.FeesKeepBooks(l, amount);
  }

  lemma FundingKeepsInv(s: State, now: nat, caller: AccountId, op: Op)
    requires op.JobFunding? || op.NearJobFunding?
    requires Inv(s, now) && Apply(s, now, caller, op).Some?
    ensures Inv(Apply(s, now, caller, op).value, now)
  {
    var n := Apply(s, now, caller, op).value;
    hide RolesInv, LocksInv, IndexInv, AdmissionInv, LedgerInv;
    if n != s {
      var id := op.request.jobId;
      var j := n.catalog.jobs[id];
      NewJobKeepsIndex(s.catalog, n.catalog.uploads, id, j);
      SumUpdate(s.catalog.jobs, UsdcFee(), id, j);
      SumUpdate(s.catalog.jobs, NearFeeOf(), id, j);
      if op.JobFunding? {
        FundingKeepsAdmission(s.catalog, s.gov, now, op.amount, op.request, op.quote, op.quoteOk, op.runwayOk);
        FeesKeepLedger(s.ledger, s.catalog.publications, now, op.amount);
      } else {
        FeesKeepLedger(s.ledger, s.catalog.publications, now, op.deposit);
      }
    }
  }

  /** Every successful call or callback keeps the invariant of every component. */
  lemma StepKeepsInv(s: State, now: nat, caller: AccountId, op: Op)
    requires Inv(s, now) && Apply(s, now, caller, op).Some?
    ensures Inv(Apply(s, now, caller, op).value, now)
  {
    hide RolesInv, LocksInv, IndexInv, AdmissionInv, LedgerInv, Keeps;
    match op
    case Governing(order) =>
      GovStepKeepsRoles(s.gov, now, caller, order);
      GovStepKeepsLocks(s.gov, now, caller, order);
    case Cataloguing(entry) =>
      var n := ApplyCatalog(s.catalog, s.gov, now, caller, entry).value;
      CatalogStepKeepsIndex(s.catalog, s.gov, now, caller, entry);
      CatalogStepKeepsPublications(s.catalog, s.gov, now, caller, entry);
      CatalogStepKeepsAdmission(s.catalog, s.gov, now, caller, entry);
      CatalogStepKeepsFees(s.catalog, s.gov, now, caller, entry, s.ledger);
      LedgerAges(s.ledger, s.catalog.publications, n.publications, now, now);
    case Trading(deal) =>
      LedgerStepKeepsInv(s.ledger, s.catalog, s.gov, now, caller, deal);
      LedgerStepKeepsFees(s.ledger, s.catalog, s.gov, now, caller, deal);
    case JobFunding(_, _, _, _, _) => FundingKeepsInv(s, now, caller, op);
    case NearJobFunding(_, _, _, _, _) => FundingKeepsInv(s, now, caller, op);
  }

  /** The invariant holds in every reachable state. */
  lemma {:induction false} RunsKeepInv(r: Run, i: nat)
    requires Valid(r) && i <= |r.steps|
    ensures Inv(r.states[i], Time(r, i))
    decreases i
  {
    hide Inv, Create, Apply;
    if i == 0 {
      var config, publicTestnet :| Create(config, publicTestnet) == Some(r.states[0]);
      InitialInv(config, publicTestnet);
    } else {
      RunsKeepInv(r, i - 1);
      var s, step := r.states[i - 1], r.steps[i - 1];
      assert r.states[(i - 1) + 1] == Next(s, step);
      TimeKeepsInv(s, Time(r, i - 1), step.now);
      if Apply(s, step.now, step.caller, step.op).Some? {
        StepKeepsInv(s, step.now, step.caller, step.op);
      }
    }
  }

  /** What is known around step `i` of a run. */
  lemma RunStep(r: Run, i: nat)
    requires Valid(r) && i < |r.steps|
    ensures Inv(r.states[i], Time(r, i)) && Inv(r.states[i], r.steps[i].now) && Time(r, i) <= r.steps[i].now
    ensures r.states[i + 1] == Next(r.states[i], r.steps[i])
    ensures Inv(r.states[i + 1], r.steps[i].now)
  {
    hide Inv;
    RunsKeepInv(r, i);
    RunsKeepInv(r, i + 1);
    TimeKeepsInv(r.states[i], Time(r, i), r.steps[i].now);
  }
}
