/** Uploads and publications over whole runs. */
module Publishing {
  import opened Common
  import opened Governance
  import opened Catalog
  import opened PublicationIndex
  import opened Admission
  import opened Ledger
  import opened Runs
  import opened History

  lemma CatalogIsSound(r: Run, i: nat, now: nat)
    requires Valid(r) && i <= |r.steps| && Time(r, i) <= now
    ensures IndexInv(r.states[i].catalog) && AdmissionInv(r.states[i].catalog, now)
  {
    hide GovInv, IndexInv, AdmissionInv, LedgerSteps.LedgerInv, FeesInv;
    RunsKeepInv(r, i);
    TimeKeepsInv(r.states[i], Time(r, i), now);
  }

  // ---------------------------------------------------------------- what stays

  /** A job keeps its terms; publishing is final. */
  predicate JobContinues(j: Job, n: Job) {
    && n.creator == j.creator && n.createdAt == j.createdAt && n.title == j.title && n.price == j.price
    && n.sourceBytes == j.sourceBytes && n.feeAsset == j.feeAsset && n.feeAmount == j.feeAmount && n.quote == j.quote
    && j.generation <= n.generation
    && (j.status == Published ==> n == j)
  }

  ghost predicate JobsContinue(before: map<Id, Job>, after: map<Id, Job>) {
    forall id {:trigger after[id]} {:trigger before[id]} | id in before :: id in after && JobContinues(before[id], after[id])
  }

  /** Whether the market is for public upload is fixed, and the list of publications is append-only. */
  ghost predicate CatalogContinues(c: Catalog, n: Catalog) {
    && (c.policy.Some? <==> n.policy.Some?)
    && JobsContinue(c.jobs, n.jobs)
    && c.count <= n.count
    && (forall k: nat {:trigger n.ids[k]} {:trigger c.ids[k]} | k < c.count && k in c.ids :: k in n.ids && n.ids[k] == c.ids[k])
  }

  lemma JobsStepContinue(c: Catalog, g: Gov, now: nat, caller: AccountId, entry: CatalogOp)
    requires JobsInv(c.jobs, c.publications) && ApplyCatalog(c, g, now, caller, entry).Some?
    ensures JobsContinue(c.jobs, ApplyCatalog(c, g, now, caller, entry).value.jobs)
  {
    var n := ApplyCatalog(c, g, now, caller, entry).value;
    if n.jobs != c.jobs {
      var id := if entry.Finalization? then entry.submission.jobId else entry.jobId;
      assert n.jobs == c.jobs[id := n.jobs[id]];
      assert JobContinues(c.jobs[id], n.jobs[id]);
    }
  }

  lemma CatalogStepContinues(c: Catalog, g: Gov, now: nat, caller: AccountId, entry: CatalogOp)
    requires IndexInv(c) && ApplyCatalog(c, g, now, caller, entry).Some?
    ensures CatalogContinues(c, ApplyCatalog(c, g, now, caller, entry).value)
  {
    hide JobsContinue, ListsInv, JobsInv, BindingsInv, TakedownsInv;
    JobsStepContinue(c, g, now, caller, entry);
    var n := ApplyCatalog(c, g, now, caller, entry).value;
    assert n.ids == c.ids || n.ids == c.ids[c.count := n.ids[c.count]];
  }

  lemma FundingStepContinues(s: State, now: nat, caller: AccountId, op: Op)
    requires (op.JobFunding? || op.NearJobFunding?) && Apply(s, now, caller, op).Some?
    ensures CatalogContinues(s.catalog, Apply(s, now, caller, op).value.catalog)
  {
    var n := Apply(s, now, caller, op).value.catalog;
    assert n.jobs == s.catalog.jobs || (op.request.jobId !in s.catalog.jobs && n.jobs == s.catalog.jobs[op.request.jobId := n.jobs[op.request.jobId]]);
  }

  lemma CatalogStays(c: Catalog)
    ensures CatalogContinues(c, c)
  {
  }

  lemma CatalogChains(a: Catalog, b: Catalog, c: Catalog)
    requires CatalogContinues(a, b) && CatalogContinues(b, c)
    ensures CatalogContinues(a, c)
  {
    forall id | id in a.jobs
      ensures id in c.jobs && JobContinues(a.jobs[id], c.jobs[id])
    {
      assert JobContinues(a.jobs[id], b.jobs[id]);
    }
    forall k: nat | k < a.count && k in a.ids
      ensures k in c.ids && c.ids[k] == a.ids[k]
    {
      assert b.ids[k] == a.ids[k];
    }
  }

  lemma NextContinuesCatalog(s: State, step: Step)
    requires IndexInv(s.catalog)
    ensures CatalogContinues(s.catalog, Next(s, step).catalog)
  {
    hide IndexInv, CatalogContinues;
    CatalogStays(s.catalog);
    if Apply(s, step.now, step.caller, step.op).Some? {
      match step.op
      case Cataloguing(entry) => CatalogStepContinues(s.catalog, s.gov, step.now, step.caller, entry);
      case JobFunding(_, _, _, _, _) => FundingStepContinues(s, step.now, step.caller, step.op);
      case NearJobFunding(_, _, _, _, _) => FundingStepContinues(s, step.now, step.caller, step.op);
      case Governing(_) =>
      case Trading(_) =>
    }
  }

  /** Jobs are never dropped or rewritten, and the list of publications only grows at its end. */
  lemma {:induction false} RunContinuesCatalog(r: Run, i: nat, j: nat)
    requires Valid(r) && i <= j <= |r.steps|
    ensures CatalogContinues(r.states[i].catalog, r.states[j].catalog)
    decreases j
  {
    hide IndexInv, CatalogContinues, Next, Initial;
    CatalogStays(r.states[i].catalog);
    if i < j {
      RunContinuesCatalog(r, i, j - 1);
      CatalogIsSound(r, j - 1, Time(r, j - 1));
      assert r.states[(j - 1) + 1] == Next(r.states[j - 1], r.steps[j - 1]);
      NextContinuesCatalog(r.states[j - 1], r.steps[j - 1]);
      CatalogChains(r.states[i].catalog, r.states[j - 1].catalog, r.states[j].catalog);
    }
  }

  // ---------------------------------------------------------------- public upload

  /**
   On a market that was created for public upload, at every moment of every run a creator has at
   most one job that is authorized and inside its 24 hours, and never created more than two jobs
   on one UTC day; no stored job can make the deadline check panic.
   */
  lemma UploadsAreLimited(r: Run, i: nat, now: nat, creator: AccountId)
    requires Valid(r) && i <= |r.steps| && Time(r, i) <= now && r.states[0].catalog.policy.Some?
    ensures var jobs := r.states[i].catalog.jobs;
            && (forall a, b | a in jobs && b in jobs && jobs[a].creator == creator == jobs[b].creator
                  && Unfinished(jobs[a], now) && Unfinished(jobs[b], now) :: a == b)
            && (forall d: nat :: |JobsOn(jobs, creator, d)| <= DAILY_UPLOADS)
            && (forall id | id in jobs :: PublicDeadline(jobs[id]).Some?)
  {
    hide Next, AdmissionInv, IndexInv, JobsContinue;
    RunContinuesCatalog(r, 0, i);
    CatalogIsSound(r, i, now);
    PublicUploadLimits(r.states[i].catalog, now, creator);
  }

  // ---------------------------------------------------------------- the index

  /**
   In every state the positions below the count list each publication exactly once, a job is
   published exactly when its publication exists, and each asset hash and playback id in the two
   binding tables belongs to exactly the publication that carries it.
   */
  lemma IndexIsExact(r: Run, i: nat, p: Id)
    requires Valid(r) && i <= |r.steps|
    ensures var c := r.states[i].catalog;
            && (p in c.publications <==> exists k: nat :: k < c.count && k in c.ids && c.ids[k] == p)
            && (forall a: nat, b: nat | a < c.count && b < c.count && a in c.ids && b in c.ids && c.ids[a] == c.ids[b] :: a == b)
            && (p in c.publications <==> p in c.jobs && c.jobs[p].status == Published)
            && (forall q | q in c.publications && p in c.publications
                  && (c.publications[p].assetHash == c.publications[q].assetHash || c.publications[p].playbackId == c.publications[q].playbackId) :: p == q)
  {
    var c := r.states[i].catalog;
    CatalogIsSound(r, i, Time(r, i));
    hide Valid, AdmissionInv;
    if p in c.publications {
      assert PublicationIndex.Listed(c.ids, c.count, p);
    }
    forall q | q in c.publications && p in c.publications
      && (c.publications[p].assetHash == c.publications[q].assetHash || c.publications[p].playbackId == c.publications[q].playbackId)
      ensures p == q
    {
      assert IdentityOf(Asset, c.publications[q]) in c.assets && IdentityOf(Playback, c.publications[q]) in c.playbacks;
      assert IdentityOf(Asset, c.publications[p]) in c.assets && IdentityOf(Playback, c.publications[p]) in c.playbacks;
    }
  }

  /** Everything about a publication except its availability is fixed for good, and availability only worsens. */
  lemma PublicationsAreFixed(r: Run, i: nat, j: nat, p: Id)
    requires Valid(r) && i <= j <= |r.steps| && p in r.states[i].catalog.publications
    ensures p in r.states[j].catalog.publications
    ensures var a, b := r.states[i].catalog.publications[p], r.states[j].catalog.publications[p];
            b == a.(availability := b.availability) && Severity(a.availability) <= Severity(b.availability)
  {
    hide Next, LedgerContinues;
    RunContinues(r, i, j);
  }

  // ---------------------------------------------------------------- paging while calls go on

  /** A client that asks for page after page, each from where the last one ended, and finds these catalogs. */
  function ReadOver(cs: seq<Catalog>, from: nat, limit: nat): Option<seq<Publication>> {
    if cs == [] then Some([])
    else
      var page := GetPublications(cs[0], Some(from), Some(limit));
      if page.None? then None
      else
        var rest := ReadOver(cs[1..], from + |page.value|, limit);
        if rest.None? then None else Some(page.value + rest.value)
  }

  /** What a page showed is the publication at this place, except that its availability may be an earlier one. */
  predicate SameEntry(c: Catalog, place: nat, p: Publication) {
    && place < c.count && place in c.ids && c.ids[place] in c.publications
    && c.publications[c.ids[place]] == p.(availability := c.publications[c.ids[place]].availability)
  }

  /** So for every publication of a page that begins at `from`. */
  predicate Shows(c: Catalog, from: nat, page: seq<Publication>) {
    from + |page| <= c.count && forall k {:trigger page[k]} | 0 <= k < |page| :: SameEntry(c, from + k, page[k])
  }

  /** The catalog of an earlier and of a later state. */
  ghost predicate Later(c: Catalog, n: Catalog) {
    && ListsInv(c.ids, c.count, c.publications.Keys) && ListsInv(n.ids, n.count, n.publications.Keys)
    && CatalogContinues(c, n) && Keeps(c.publications, n.publications)
  }

  lemma RunMakesLater(r: Run, i: nat, j: nat)
    requires Valid(r) && i <= j <= |r.steps|
    ensures Later(r.states[i].catalog, r.states[j].catalog)
  {
    hide Next, LedgerContinues, AdmissionInv, Keeps, JobsContinue, JobsInv, BindingsInv, TakedownsInv, ListsInv;
    CatalogIsSound(r, i, Time(r, i));
    CatalogIsSound(r, j, Time(r, j));
    RunContinuesCatalog(r, i, j);
    RunContinues(r, i, j);
  }

  lemma EntryStays(c: Catalog, n: Catalog, start: nat, end: nat, k: nat)
    requires Later(c, n) && start + k < end <= c.count
    ensures ReadRange(c, start, end).Some? && |ReadRange(c, start, end).value| == end - start
    ensures SameEntry(n, start + k, ReadRange(c, start, end).value[k])
  {
    hide JobsContinue, ReadRange;
    RangeAt(c, start, end, k);
    assert n.ids[start + k] == c.ids[start + k];
  }

  lemma RangeStays(c: Catalog, n: Catalog, from: nat, end: nat)
    requires Later(c, n) && from <= end <= c.count
    ensures ReadRange(c, from, end).Some? && from + |ReadRange(c, from, end).value| == end && c.count <= n.count
    ensures Shows(n, from, ReadRange(c, from, end).value)
  {
    RangeSize(c, from, end);
    assert c.count <= n.count;
    hide Later, ReadRange, SameEntry;
    forall k | 0 <= k < end - from
      ensures SameEntry(n, from + k, ReadRange(c, from, end).value[k])
    {
      EntryStays(c, n, from, end, k);
    }
  }

  /** One page, seen from a later state. */
  lemma PageStays(c: Catalog, n: Catalog, from: nat, limit: nat)
    requires Later(c, n) && from <= c.count
    ensures var page := GetPublications(c, Some(from), Some(limit));
            page.Some? && from + |page.value| <= c.count <= n.count && Shows(n, from, page.value)
  {
    hide Later, Shows, ReadRange;
    RangeStays(c, n, from, Min(from + Min(limit, 100), c.count));
  }

  lemma EntriesJoin(c: Catalog, from: nat, page: seq<Publication>, rest: seq<Publication>)
    requires Shows(c, from, page) && Shows(c, from + |page|, rest)
    ensures Shows(c, from, page + rest)
  {
    hide SameEntry;
    forall k | 0 <= k < |page + rest|
      ensures SameEntry(c, from + k, (page + rest)[k])
    {
      if k >= |page| {
        assert SameEntry(c, from + |page| + (k - |page|), rest[k - |page|]);
      }
    }
  }

  lemma ShowsNothing(c: Catalog, from: nat)
    requires from <= c.count
    ensures Shows(c, from, [])
  {
  }

  lemma {:induction false} ReadsStay(cs: seq<Catalog>, n: Catalog, from: nat, limit: nat)
    requires forall k | 0 <= k < |cs| :: Later(cs[k], n)
    requires forall k, l | 0 <= k < l < |cs| :: cs[k].count <= cs[l].count
    requires from <= if cs == [] then n.count else cs[0].count
    ensures ReadOver(cs, from, limit).Some? && Shows(n, from, ReadOver(cs, from, limit).value)
    decreases |cs|
  {
    hide Later, Shows, GetPublications;
    if cs == [] {
      ShowsNothing(n, from);
    } else {
      PageStays(cs[0], n, from, limit);
      var page := GetPublications(cs[0], Some(from), Some(limit)).value;
      ReadsStay(cs[1..], n, from + |page|, limit);
      EntriesJoin(n, from, page, ReadOver(cs[1..], from + |page|, limit).value);
    }
  }

  lemma EntriesAreTheList(c: Catalog, read: seq<Publication>, limit: nat)
    requires ListsInv(c.ids, c.count, c.publications.Keys) && limit > 0 && Shows(c, 0, read)
    ensures var whole := ReadPages(c, 0, limit);
            && whole.Some? && |whole.value| == c.count
            && (forall k | 0 <= k < |read| :: whole.value[k] == read[k].(availability := whole.value[k].availability))
    ensures GetPublications(c, Some(|read|), Some(limit)) == Some([]) <==> |read| == c.count
  {
    RangeSize(c, |read|, Min(|read| + Min(limit, 100), c.count));
    RangeSize(c, 0, c.count);
    PagesAreTheWholeList(c, 0, limit);
    hide ListsInv, ReadRange, ReadPages;
    forall k | 0 <= k < |read|
      ensures ReadPages(c, 0, limit).value[k] == read[k].(availability := ReadPages(c, 0, limit).value[k].availability)
    {
      assert SameEntry(c, 0 + k, read[k]);
      RangeAt(c, 0, c.count, k);
    }
  }

  /** The catalogs at these states of a run. */
  function CatalogsAt(r: Run, at: seq<nat>): seq<Catalog>
    requires forall k | 0 <= k < |at| :: at[k] < |r.states|
  {
    seq(|at|, k requires 0 <= k < |at| => r.states[at[k]].catalog)
  }

  /**
   A client that asks for its pages at moments of the run while other calls go on gets, page after
   page, the beginning of the list as it is at the end, entry by entry, except that availability
   may be an earlier one; it has the whole list exactly when its next page is empty.
   */
  lemma PagingAcrossTime(r: Run, at: seq<nat>, j: nat, limit: nat)
    requires Valid(r) && j <= |r.steps| && limit > 0
    requires (forall k, l | 0 <= k < l < |at| :: at[k] <= at[l]) && (forall k | 0 <= k < |at| :: at[k] <= j)
    ensures var c := r.states[j].catalog; var read, whole := ReadOver(CatalogsAt(r, at), 0, limit), ReadPages(c, 0, limit);
            && read.Some? && whole.Some? && |read.value| <= |whole.value| == c.count
            && (forall k | 0 <= k < |read.value| :: whole.value[k] == read.value[k].(availability := whole.value[k].availability))
            && (GetPublications(c, Some(|read.value|), Some(limit)) == Some([]) <==> |read.value| == |whole.value|)
  {
    var c, cs := r.states[j].catalog, CatalogsAt(r, at);
    forall k | 0 <= k < |cs|
      ensures Later(cs[k], c)
    {
      RunMakesLater(r, at[k], j);
    }
    forall k, l | 0 <= k < l < |cs|
      ensures cs[k].count <= cs[l].count
    {
      RunContinuesCatalog(r, at[k], at[l]);
    }
    RunMakesLater(r, j, j);
    hide Valid, CatalogsAt, GetPublications, ReadPages, ReadOver, SameEntry;
    ReadsStay(cs, c, 0, limit);
    EntriesAreTheList(c, ReadOver(cs, 0, limit).value, limit);
  }
}
