/**
 Upload jobs, publications and the public-upload admission record.
 A result of `None` is a panic. Format checks that only look at the characters of one
 argument are gathered in that argument's `wellFormed` flag.
 */
module Catalog {
  import opened Common
  import opened Governance
  import opened Money

  const JOB_TTL_MS: nat := 86_400_000 // 24 hours
  const PUBLIC_SOURCE_MAX_BYTES: nat := 5_000_000_000
  const DAILY_UPLOADS: nat := 2

  /** The three named profile configurations of public upload, or any other hash. */
  datatype Profile = FullHd | Standard | Legacy | Other(hash: string)

  datatype JobStatus = Authorized | Published

  datatype FeeAsset = Usdc | Near

  datatype Job = Job(
    creator: AccountId,
    title: string,
    price: nat,
    sourceBytes: nat,
    profile: Profile,
    generation: nat,
    status: JobStatus,
    createdAt: nat,
    publishedAt: Option<nat>,
    feeAsset: FeeAsset,
    feeAmount: nat,
    feeUsd: nat,
    uploadKey: string,
    uploadKeyExpires: nat,
    quote: Option<string>)

  datatype JobRequest = JobRequest(
    creator: AccountId,
    jobId: Id,
    title: string,
    price: nat,
    sourceBytes: nat,
    profile: Profile,
    uploadKey: string,
    uploadKeyExpires: nat,
    wellFormed: bool)

  datatype Availability = Active | SalesSuspended | Takedown

  datatype Publication = Publication(
    creator: AccountId,
    title: string,
    price: nat,
    generation: nat,
    sourceBytes: nat,
    profile: Profile,
    assetHash: string,
    playbackId: string,
    projectHash: string,
    verifiedBytes: nat,
    fingerprint: Option<string>,
    readyAt: nat,
    availability: Availability,
    publishedAt: nat)

  datatype Submission = Submission(
    jobId: Id,
    generation: nat,
    creator: AccountId,
    sourceBytes: nat,
    profile: Profile,
    assetHash: string,
    playbackId: string,
    projectHash: string,
    verifiedBytes: nat,
    fingerprint: Option<string>,
    readyAt: nat,
    availability: Availability,
    wellFormed: bool)

  datatype TakedownRecord = TakedownRecord(reason: string, incident: string, evidence: string, effectiveAt: nat, recordedAt: nat)

  /** What admission remembers about one creator. */
  datatype Uploads = Uploads(day: nat, count: nat, latest: Id)

  datatype Catalog = Catalog(
    policy: Option<seq<Profile>>,
    jobs: map<Id, Job>,
    publications: map<Id, Publication>,
    assets: map<string, Id>,
    playbacks: map<string, Id>,
    takedowns: map<Id, TakedownRecord>,
    ids: map<nat, Id>,
    count: nat,
    uploads: map<AccountId, Uploads>)

  const STANDARD_PROFILES: seq<Profile> := [Standard, Legacy]
  const FULL_HD_PROFILES: seq<Profile> := [FullHd, Standard, Legacy]

  function EmptyCatalog(publicUpload: bool): Catalog {
    Catalog(if publicUpload then Some(STANDARD_PROFILES) else None, map[], map[], map[], map[], map[], map[], 0, map[])
  }

  /** The UTC day of a block time. */
  function DayOf(time: nat): nat {
    time / 86_400_000
  }

  predicate IsBridge(g: Gov, caller: AccountId) {
    caller == g.roles.bridge && !g.freeze.closed
  }

  predicate TakenDown(c: Catalog, publicationId: Id) {
    publicationId in c.publications && c.publications[publicationId].availability == Takedown
  }

  // ---------------------------------------------------------------- jobs

  /** `assert_paid_job_request` */
  predicate ValidRequest(r: JobRequest, now: nat) {
    && r.wellFormed
    && 1 <= r.sourceBytes <= SOURCE_MAX_BYTES
    && r.uploadKeyExpires > now
    && r.price >= MIN_TICKET_PRICE
  }

  function NewJob(r: JobRequest, now: nat, asset: FeeAsset, amount: nat, usd: nat, quote: Option<string>): Job {
    Job(r.creator, r.title, r.price, r.sourceBytes, r.profile, 1, Authorized, now, None, asset, amount, usd,
        r.uploadKey, r.uploadKeyExpires, quote)
  }

  /** An exact replay of a funded request; everything except its progress must agree. */
  predicate JobMatches(j: Job, r: JobRequest, asset: FeeAsset, amount: nat, usd: nat, quote: Option<string>) {
    && j.creator == r.creator && j.title == r.title && j.price == r.price && j.sourceBytes == r.sourceBytes
    && j.profile == r.profile && j.uploadKey == r.uploadKey && j.uploadKeyExpires == r.uploadKeyExpires
    && j.feeAsset == asset && j.feeAmount == amount && j.feeUsd == usd && j.quote == quote
  }

  /** `require_public_upload_job`: the deadline of a job that fits the public policy. */
  function PublicDeadline(j: Job): Option<nat> {
    if j.generation != 1 || j.feeAsset != Usdc || j.quote.None? then None
    else if j.sourceBytes > PUBLIC_SOURCE_MAX_BYTES || j.profile.Other? then None
    else After(j.createdAt, JOB_TTL_MS)
  }

  /** The creator's latest job is published, past its deadline, or unknown. */
  predicate PreviousDone(c: Catalog, now: nat, creator: AccountId) {
    creator in c.uploads && c.uploads[creator].latest in c.jobs ==>
      var j := c.jobs[c.uploads[creator].latest];
      j.status == Published || (PublicDeadline(j).Some? && now >= PublicDeadline(j).value)
  }

  function UsedToday(c: Catalog, now: nat, creator: AccountId): nat {
    if creator in c.uploads && c.uploads[creator].day == DayOf(now) then c.uploads[creator].count else 0
  }

  /** `admit_public_upload`: one unfinished upload at a time, two a day. */
  function Admit(c: Catalog, now: nat, r: JobRequest): Option<Catalog> {
    if r.sourceBytes > PUBLIC_SOURCE_MAX_BYTES || c.policy.None? || c.policy.value == [] || c.policy.value[0] != r.profile then None
    else if After(now, JOB_TTL_MS).None? || r.uploadKeyExpires > now + JOB_TTL_MS then None
    else if !PreviousDone(c, now, r.creator) || UsedToday(c, now, r.creator) >= DAILY_UPLOADS then None
    else Some(c.(uploads := c.uploads[r.creator := Uploads(DayOf(now), UsedToday(c, now, r.creator) + 1, r.jobId)]))
  }

  /** How a funded request ends: a job is created, or the whole amount is returned. */
  datatype Funding = Created(catalog: Catalog) | AllReturned

  /**
   The `create_paid_job` branch of `ft_on_transfer`. `quote` is the identifier of an attached
   sponsor quote and `quoteOk` the outcome of checking it; `runwayOk` is the storage check that
   public upload makes after its writes.
   */
  function FundJob(c: Catalog, g: Gov, now: nat, amount: nat, r: JobRequest, quote: Option<string>, quoteOk: bool, runwayOk: bool)
    : Option<Funding>
  {
    var fee := UploadFee(r.sourceBytes);
    if fee.None? || (quote.Some? && !(quoteOk && ValidRequest(r, now))) then None
    else if c.policy.Some? && quote.None? then Some(AllReturned)
    else
      var expected := fee.value + (if quote.Some? then SPONSORED_UPLOAD_FEE else 0);
      if amount != expected then None
      else if r.jobId in c.jobs then
        if JobMatches(c.jobs[r.jobId], r, Usdc, expected, expected, quote) then Some(AllReturned) else None
      else if g.pause.closed then Some(AllReturned)
      else
        var admitted := if c.policy.Some? then Admit(c, now, r) else Some(c);
        if admitted.None? || !ValidRequest(r, now) || (c.policy.Some? && !runwayOk) then None
        else
          var n := admitted.value;
          Some(Created(n.(jobs := n.jobs[r.jobId := NewJob(r, now, Usdc, expected, expected, quote)])))
  }

  /** `create_paid_job_near`: the deposit is kept only when a job is created. */
  function FundJobNear(c: Catalog, g: Gov, now: nat, caller: AccountId, deposit: nat, r: JobRequest, quote: string, nearUsd: nat, quoteOk: bool)
    : Option<Funding>
  {
    var fee := UploadFee(r.sourceBytes);
    if c.policy.Some? || caller != r.creator || !quoteOk || nearUsd == 0 || fee.None? then None
    else if deposit != NearFee(fee.value, nearUsd) then None
    else if r.jobId in c.jobs then
      if JobMatches(c.jobs[r.jobId], r, Near, deposit, fee.value, Some(quote)) then Some(AllReturned) else None
    else if g.pause.closed || !ValidRequest(r, now) then None
    else Some(Created(c.(jobs := c.jobs[r.jobId := NewJob(r, now, Near, deposit, fee.value, Some(quote))])))
  }

  function ReplaceUploadKey(c: Catalog, now: nat, caller: AccountId, jobId: Id, key: string, expires: nat, wellFormed: bool)
    : Option<Catalog>
  {
    if jobId !in c.jobs then None
    else
      var j := c.jobs[jobId];
      if caller != j.creator || j.status != Authorized || !wellFormed || expires <= now then None
      else if c.policy.Some? && !(PublicDeadline(j).Some? && now < PublicDeadline(j).value && expires <= PublicDeadline(j).value) then None
      else Some(c.(jobs := c.jobs[jobId := j.(uploadKey := key, uploadKeyExpires := expires)]))
  }

  function RestartJob(c: Catalog, caller: AccountId, jobId: Id, sourceBytes: nat, profile: Profile, wellFormed: bool): Option<Catalog> {
    if c.policy.Some? || jobId !in c.jobs then None
    else
      var j := c.jobs[jobId];
      if caller != j.creator || j.status == Published || !wellFormed || j.sourceBytes != sourceBytes || j.generation == U64_MAX then None
      else Some(c.(jobs := c.jobs[jobId := j.(generation := j.generation + 1, profile := profile)]))
  }

  // ---------------------------------------------------------------- publications

  predicate PublicationMatches(p: Publication, s: Submission) {
    && p.generation == s.generation && p.creator == s.creator && p.sourceBytes == s.sourceBytes && p.profile == s.profile
    && p.assetHash == s.assetHash && p.playbackId == s.playbackId && p.projectHash == s.projectHash
    && p.verifiedBytes == s.verifiedBytes && p.fingerprint == s.fingerprint && p.readyAt == s.readyAt
  }

  predicate SubmissionFitsJob(j: Job, s: Submission) {
    && j.generation == s.generation && j.creator == s.creator && j.sourceBytes == s.sourceBytes
    && s.verifiedBytes == s.sourceBytes && j.profile == s.profile
  }

  /** A free identity, or one this job already holds. */
  predicate Bindable(bindings: map<string, Id>, identity: string, jobId: Id) {
    identity in bindings ==> bindings[identity] == jobId
  }

  function NewPublication(j: Job, s: Submission, now: nat): Publication {
    Publication(s.creator, j.title, j.price, s.generation, s.sourceBytes, s.profile, s.assetHash, s.playbackId,
                s.projectHash, s.verifiedBytes, s.fingerprint, s.readyAt, s.availability, now)
  }

  function Finalize(c: Catalog, g: Gov, now: nat, caller: AccountId, s: Submission): Option<Catalog> {
    if !IsBridge(g, caller) || s.availability != Active || !s.wellFormed || s.readyAt == 0 then None
    else if s.jobId !in c.jobs || !SubmissionFitsJob(c.jobs[s.jobId], s) then None
    else if s.jobId in c.publications then
      if PublicationMatches(c.publications[s.jobId], s) then Some(c) else None
    else
      var j := c.jobs[s.jobId];
      if c.policy.Some? && !(PublicDeadline(j).Some? && now < PublicDeadline(j).value) then None
      else if !Bindable(c.assets, s.assetHash, s.jobId) || !Bindable(c.playbacks, s.playbackId, s.jobId) || c.count == U64_MAX then None
      else Some(c.(
          jobs := c.jobs[s.jobId := j.(status := Published, publishedAt := Some(now))],
          publications := c.publications[s.jobId := NewPublication(j, s, now)],
          ids := c.ids[c.count := s.jobId],
          count := c.count + 1,
          assets := c.assets[s.assetHash := s.jobId],
          playbacks := c.playbacks[s.playbackId := s.jobId]))
  }

  function SuspendSales(c: Catalog, g: Gov, caller: AccountId, id: Id): Option<Catalog> {
    if !IsBridge(g, caller) || id !in c.publications || c.publications[id].availability == Takedown then None
    else Some(c.(publications := c.publications[id := c.publications[id].(availability := SalesSuspended)]))
  }

  function TakeDown(c: Catalog, g: Gov, now: nat, caller: AccountId, id: Id, record: TakedownRecord, wellFormed: bool): Option<Catalog> {
    if caller != g.roles.takedown || !wellFormed || !(0 < record.effectiveAt <= now) || id !in c.publications then None
    else if c.publications[id].availability == Takedown then
      if id in c.takedowns && c.takedowns[id].(recordedAt := record.recordedAt) == record then Some(c) else None
    else Some(c.(
        publications := c.publications[id := c.publications[id].(availability := Takedown)],
        takedowns := c.takedowns[id := record.(recordedAt := now)]))
  }

  function SetFullHd(c: Catalog, g: Gov, caller: AccountId, enabled: bool, runwayOk: bool): Option<Catalog> {
    if caller != g.roles.admin || g.mainnet || !g.freeze.closed || !g.pause.closed || c.policy.None? then None
    else if c.policy.value != STANDARD_PROFILES && c.policy.value != FULL_HD_PROFILES then None
    else
      var selected := if enabled then FULL_HD_PROFILES else STANDARD_PROFILES;
      if c.policy.value != selected && !runwayOk then None else Some(c.(policy := Some(selected)))
  }

  // ---------------------------------------------------------------- reading the index

  function ReadRange(c: Catalog, start: nat, end: nat): (page: Option<seq<Publication>>)
    ensures page.Some? ==> |page.value| == (if start <= end then end - start else 0)
    decreases end - start
  {
    if end <= start then Some([])
    else if start !in c.ids || c.ids[start] !in c.publications then None
    else
      var rest := ReadRange(c, start + 1, end);
      if rest.None? then None else Some([c.publications[c.ids[start]]] + rest.value)
  }

  function Min(a: nat, b: nat): nat {
    if a <= b then a else b
  }

  /** `get_publications`; `None` would be one of its two `expect` panics. */
  function GetPublications(c: Catalog, from: Option<nat>, limit: Option<nat>): (page: Option<seq<Publication>>)
    ensures page.Some? && page.value != [] ==> from.GetOr(0) + |page.value| <= c.count
  {
    var start := Min(from.GetOr(0), c.count);
    var end := Min(start + Min(limit.GetOr(50), 100), c.count);
    ReadRange(c, start, end)
  }

  // ---------------------------------------------------------------- one call

  datatype CatalogOp =
    | KeyReplacement(jobId: Id, key: string, expires: nat, wellFormed: bool)
    | JobRestart(jobId: Id, sourceBytes: nat, profile: Profile, wellFormed: bool)
    | Finalization(submission: Submission)
    | SalesSuspension(id: Id)
    | TakedownOrder(id: Id, record: TakedownRecord, wellFormed: bool)
    | ProfileChoice(enabled: bool, runwayOk: bool)

  function ApplyCatalog(c: Catalog, g: Gov, now: nat, caller: AccountId, op: CatalogOp): Option<Catalog> {
    match op
    case KeyReplacement(jobId, key, expires, wellFormed) => ReplaceUploadKey(c, now, caller, jobId, key, expires, wellFormed)
    case JobRestart(jobId, sourceBytes, profile, wellFormed) => RestartJob(c, caller, jobId, sourceBytes, profile, wellFormed)
    case Finalization(submission) => Finalize(c, g, now, caller, submission)
    case SalesSuspension(id) => SuspendSales(c, g, caller, id)
    case TakedownOrder(id, record, wellFormed) => TakeDown(c, g, now, caller, id, record, wellFormed)
    case ProfileChoice(enabled, runwayOk) => SetFullHd(c, g, caller, enabled, runwayOk)
  }
}
