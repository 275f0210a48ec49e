/**
 Public upload: at most one unfinished job per creator and at most two jobs per creator and UTC
 day, although only the latest job and one counter are stored.
 */
module Admission {
  import opened Common
  import opened Governance
  import opened Catalog

  /** The job still occupies its creator: it is not published and its 24 hours are not over. */
  predicate Unfinished(j: Job, now: nat) {
    j.status == Authorized && now < j.createdAt + JOB_TTL_MS
  }

  /** The jobs `creator` created on one UTC day. */
  ghost function JobsOn(jobs: map<Id, Job>, creator: AccountId, day: nat): set<Id> {
    set id | id in jobs && jobs[id].creator == creator && DayOf(jobs[id].createdAt) == day
  }

  /** A job fits the policy and is either its creator's latest or no longer unfinished. */
  predicate JobFits(id: Id, j: Job, uploads: map<AccountId, Uploads>, now: nat) {
    && PublicDeadline(j) == Some(j.createdAt + JOB_TTL_MS)
    && j.createdAt <= now
    && j.creator in uploads
    && DayOf(j.createdAt) <= uploads[j.creator].day
    && (Unfinished(j, now) ==> uploads[j.creator].latest == id)
  }

  ghost predicate JobsFit(jobs: map<Id, Job>, uploads: map<AccountId, Uploads>, now: nat) {
    forall id {:trigger JobFits(id, jobs[id], uploads, now)} | id in jobs :: JobFits(id, jobs[id], uploads, now)
  }

  /** The counter is the number of jobs of its day, and no day has more than two. */
  ghost predicate Counted(jobs: map<Id, Job>, a: AccountId, u: Uploads) {
    && u.latest in jobs && jobs[u.latest].creator == a && DayOf(jobs[u.latest].createdAt) == u.day
    && |JobsOn(jobs, a, u.day)| == u.count
    && (forall d: nat {:trigger JobsOn(jobs, a, d)} :: |JobsOn(jobs, a, d)| <= DAILY_UPLOADS)
  }

  ghost predicate JobsCounted(jobs: map<Id, Job>, uploads: map<AccountId, Uploads>) {
    forall a {:trigger Counted(jobs, a, uploads[a])} | a in uploads :: Counted(jobs, a, uploads[a])
  }

  /** Everything a public market keeps about its jobs; vacuous on a market without the policy. */
  ghost predicate AdmissionInv(c: Catalog, now: nat) {
    c.policy.Some? ==>
      && (c.policy.value == STANDARD_PROFILES || c.policy.value == FULL_HD_PROFILES)
      && JobsFit(c.jobs, c.uploads, now)
      && JobsCounted(c.jobs, c.uploads)
  }

  /** Waiting changes nothing but the end of deadlines. */
  lemma TimePasses(c: Catalog, now: nat, later: nat)
    requires AdmissionInv(c, now) && now <= later
    ensures AdmissionInv(c, later)
  {
    forall id | c.policy.Some? && id in c.jobs
      ensures JobFits(id, c.jobs[id], c.uploads, later)
    {
      assert JobFits(id, c.jobs[id], c.uploads, now);
    }
  }

  /** Rewriting a job without touching its creator or creation time moves no job between days. */
  lemma JobsOnStay(jobs: map<Id, Job>, id: Id, j: Job, a: AccountId, d: nat)
    requires id in jobs && j.creator == jobs[id].creator && j.createdAt == jobs[id].createdAt
    ensures JobsOn(jobs[id := j], a, d) == JobsOn(jobs, a, d)
  {
  }

  lemma JobsOnGrow(jobs: map<Id, Job>, id: Id, j: Job, a: AccountId, d: nat)
    requires id !in jobs
    ensures JobsOn(jobs[id := j], a, d) ==
            JobsOn(jobs, a, d) + (if j.creator == a && DayOf(j.createdAt) == d then {id} else {})
  {
  }

  /** Steps that only advance one job: a new key, a publication. */
  lemma JobProgressKeepsAdmission(jobs: map<Id, Job>, uploads: map<AccountId, Uploads>, now: nat, id: Id, j: Job)
    requires JobsFit(jobs, uploads, now) && JobsCounted(jobs, uploads) && id in jobs
    requires j == jobs[id].(status := j.status, publishedAt := j.publishedAt, uploadKey := j.uploadKey, uploadKeyExpires := j.uploadKeyExpires)
    requires j.status == jobs[id].status || j.status == Published
    ensures JobsFit(jobs[id := j], uploads, now) && JobsCounted(jobs[id := j], uploads)
  {
    var n := jobs[id := j];
    forall k | k in n
      ensures JobFits(k, n[k], uploads, now)
    {
      assert JobFits(k, jobs[k], uploads, now);
    }
    forall a | a in uploads
      ensures Counted(n, a, uploads[a])
    {
      assert Counted(jobs, a, uploads[a]);
      forall d: nat
        ensures JobsOn(n, a, d) == JobsOn(jobs, a, d)
      {
        JobsOnStay(jobs, id, j, a, d);
      }
    }
  }

  lemma DaysAreOrdered(earlier: nat, later: nat)
    requires earlier <= later
    ensures DayOf(earlier) <= DayOf(later)
  {
  }

  /** After admission the creator's earlier jobs are all finished, and the new one is the latest. */
  lemma AdmittedJobFits(c: Catalog, now: nat, r: JobRequest, j: Job)
    requires AdmissionInv(c, now) && c.policy.Some? && r.jobId !in c.jobs
    requires Admit(c, now, r).Some?
    requires j.creator == r.creator && j.createdAt == now && PublicDeadline(j) == Some(now + JOB_TTL_MS)
    ensures JobsFit(c.jobs[r.jobId := j], Admit(c, now, r).value.uploads, now)
  {
    var n := c.jobs[r.jobId := j];
    var uploads := Admit(c, now, r).value.uploads;
    forall k | k in n
      ensures JobFits(k, n[k], uploads, now)
    {
      if k != r.jobId {
        assert JobFits(k, c.jobs[k], c.uploads, now);
        if c.jobs[k].creator == r.creator {
          DaysAreOrdered(c.jobs[k].createdAt, now);
          assert Counted(c.jobs, r.creator, c.uploads[r.creator]);
          var latest := c.uploads[r.creator].latest;
          assert JobFits(latest, c.jobs[latest], c.uploads, now);
          assert PreviousDone(c, now, r.creator);
          assert !Unfinished(c.jobs[latest], now);
          assert !Unfinished(c.jobs[k], now);
        }
      }
    }
  }

  /** A creator without a record has no jobs. */
  lemma NoJobsYet(jobs: map<Id, Job>, uploads: map<AccountId, Uploads>, now: nat, a: AccountId, d: nat)
    requires JobsFit(jobs, uploads, now) && a !in uploads
    ensures JobsOn(jobs, a, d) == {}
  {
    forall id | id in jobs
      ensures jobs[id].creator != a
    {
      assert JobFits(id, jobs[id], uploads, now);
    }
  }

  /** When the recorded day is not today, today has no jobs yet. */
  lemma NoneTodayYet(jobs: map<Id, Job>, uploads: map<AccountId, Uploads>, now: nat, a: AccountId)
    requires JobsFit(jobs, uploads, now) && a in uploads && uploads[a].day < DayOf(now)
    ensures JobsOn(jobs, a, DayOf(now)) == {}
  {
    forall id | id in jobs && jobs[id].creator == a
      ensures DayOf(jobs[id].createdAt) != DayOf(now)
    {
      assert JobFits(id, jobs[id], uploads, now);
    }
  }

  /** The daily counter goes up by one, and every other count stays. */
  lemma AdmittedJobIsCounted(c: Catalog, now: nat, r: JobRequest, j: Job, a: AccountId)
    requires AdmissionInv(c, now) && c.policy.Some? && r.jobId !in c.jobs
    requires Admit(c, now, r).Some? && a in Admit(c, now, r).value.uploads
    requires j.creator == r.creator && j.createdAt == now
    ensures Counted(c.jobs[r.jobId := j], a, Admit(c, now, r).value.uploads[a])
  {
    var n := c.jobs[r.jobId := j];
    forall d: nat
      ensures JobsOn(n, a, d) == JobsOn(c.jobs, a, d) + (if a == r.creator && d == DayOf(now) then {r.jobId} else {})
      ensures a !in c.uploads ==> JobsOn(c.jobs, a, d) == {}
    {
      JobsOnGrow(c.jobs, r.jobId, j, a, d);
      if a !in c.uploads {
        NoJobsYet(c.jobs, c.uploads, now, a, d);
      }
    }
    if a in c.uploads {
      assert Counted(c.jobs, a, c.uploads[a]);
      if a == r.creator && c.uploads[a].day != DayOf(now) {
        var latest := c.uploads[a].latest;
        assert JobFits(latest, c.jobs[latest], c.uploads, now);
        DaysAreOrdered(c.jobs[latest].createdAt, now);
        NoneTodayYet(c.jobs, c.uploads, now, a);
      }
    }
  }

  // ---------------------------------------------------------------- steps

  lemma CatalogStepKeepsAdmission(c: Catalog, g: Gov, now: nat, caller: AccountId, op: CatalogOp)
    requires AdmissionInv(c, now)
    requires ApplyCatalog(c, g, now, caller, op).Some?
    ensures AdmissionInv(ApplyCatalog(c, g, now, caller, op).value, now)
  {
    if c.policy.Some? {
      var n := ApplyCatalog(c, g, now, caller, op).value;
      match op
      case KeyReplacement(jobId, key, expires, wellFormed) =>
        JobProgressKeepsAdmission(c.jobs, c.uploads, now, jobId, n.jobs[jobId]);
      case JobRestart(jobId, sourceBytes, profile, wellFormed) =>
      case Finalization(s) =>
        if s.jobId !in c.publications {
          JobProgressKeepsAdmission(c.jobs, c.uploads, now, s.jobId, n.jobs[s.jobId]);
        }
      case SalesSuspension(id) =>
      case TakedownOrder(id, record, wellFormed) =>
      case ProfileChoice(enabled, runwayOk) =>
    }
  }

  lemma FundingKeepsAdmission(c: Catalog, g: Gov, now: nat, amount: nat, r: JobRequest, quote: Option<string>, quoteOk: bool, runwayOk: bool)
    requires AdmissionInv(c, now)
    requires var f := FundJob(c, g, now, amount, r, quote, quoteOk, runwayOk); f.Some? && f.value.Created?
    ensures AdmissionInv(FundJob(c, g, now, amount, r, quote, quoteOk, runwayOk).value.catalog, now)
  {
    if c.policy.Some? {
      var n := FundJob(c, g, now, amount, r, quote, quoteOk, runwayOk).value.catalog;
      var j := n.jobs[r.jobId];
      AdmittedJobFits(c, now, r, j);
      forall a | a in n.uploads
        ensures Counted(n.jobs, a, n.uploads[a])
      {
        AdmittedJobIsCounted(c, now, r, j, a);
      }
    }
  }

  /**
   On a public market a creator never has two unfinished uploads, never creates more than two
   jobs on one day, and no stored job can make the deadline check panic.
   */
  lemma PublicUploadLimits(c: Catalog, now: nat, creator: AccountId)
    requires AdmissionInv(c, now) && c.policy.Some?
    ensures forall a, b | a in c.jobs && b in c.jobs && c.jobs[a].creator == creator == c.jobs[b].creator
              && Unfinished(c.jobs[a], now) && Unfinished(c.jobs[b], now) :: a == b
    ensures forall d: nat :: |JobsOn(c.jobs, creator, d)| <= DAILY_UPLOADS
    ensures forall id | id in c.jobs :: PublicDeadline(c.jobs[id]).Some?
  {
    forall id | id in c.jobs
      ensures JobFits(id, c.jobs[id], c.uploads, now)
    {
    }
    if creator in c.uploads {
      assert Counted(c.jobs, creator, c.uploads[creator]);
    } else {
      forall d: nat
        ensures JobsOn(c.jobs, creator, d) == {}
      {
        NoJobsYet(c.jobs, c.uploads, now, creator, d);
      }
    }
  }
}
