/** The publication index: what every catalog step keeps, and what reading it in pages gives. */
module PublicationIndex {
  import opened Common
  import opened Governance
  import opened Catalog

  ghost predicate Listed(ids: map<nat, Id>, count: nat, p: Id) {
    exists i: nat :: i < count && i in ids && ids[i] == p
  }

  ghost predicate ListsInv(ids: map<nat, Id>, count: nat, published: set<Id>) {
    && (forall i: nat :: i in ids <==> i < count)
    && (forall i: nat | i < count :: ids[i] in published)
    && (forall i: nat, j: nat | i < j < count :: ids[i] != ids[j])
    && (forall p {:trigger Listed(ids, count, p)} | p in published :: Listed(ids, count, p))
  }

  /** A publication repeats what its job promised. */
  predicate PublicationOfJob(p: Publication, j: Job) {
    && p.creator == j.creator && p.title == j.title && p.price == j.price && p.generation == j.generation
    && p.sourceBytes == j.sourceBytes && p.verifiedBytes == j.sourceBytes && p.profile == j.profile
    && j.publishedAt == Some(p.publishedAt)
  }

  ghost predicate JobsInv(jobs: map<Id, Job>, publications: map<Id, Publication>) {
    && (forall p {:trigger publications[p]} | p in publications :: p in jobs && PublicationOfJob(publications[p], jobs[p]))
    && (forall j {:trigger jobs[j]} | j in jobs :: jobs[j].status == Published <==> j in publications)
  }

  /** The two identities a publication binds. */
  datatype Kind = Asset | Playback

  function IdentityOf(kind: Kind, p: Publication): string {
    if kind.Asset? then p.assetHash else p.playbackId
  }

  ghost predicate BindingsInv(bindings: map<string, Id>, publications: map<Id, Publication>, kind: Kind) {
    && (forall a {:trigger bindings[a]} | a in bindings :: bindings[a] in publications && IdentityOf(kind, publications[bindings[a]]) == a)
    && (forall p {:trigger IdentityOf(kind, publications[p])} | p in publications :: IdentityOf(kind, publications[p]) in bindings && bindings[IdentityOf(kind, publications[p])] == p)
  }

  ghost predicate TakedownsInv(takedowns: map<Id, TakedownRecord>, publications: map<Id, Publication>) {
    forall p :: p in takedowns <==> p in publications && publications[p].availability == Takedown
  }

  /**
   Positions `0..count` list each publication exactly once; a job is published exactly when its
   publication exists; every asset hash and playback id belongs to the one publication that
   carries it; takedown records exist exactly for the publications taken down.
   */
  ghost predicate IndexInv(c: Catalog) {
    && ListsInv(c.ids, c.count, c.publications.Keys)
    && JobsInv(c.jobs, c.publications)
    && BindingsInv(c.assets, c.publications, Asset)
    && BindingsInv(c.playbacks, c.publications, Playback)
    && TakedownsInv(c.takedowns, c.publications)
  }

  lemma EmptyIndex(publicUpload: bool)
    ensures IndexInv(EmptyCatalog(publicUpload))
  {
  }

  // ---------------------------------------------------------------- steps

  function Severity(a: Availability): nat {
    match a
    case Active => 0
    case SalesSuspended => 1
    case Takedown => 2
  }

  /** Only availability ever changes in a publication, and it only moves towards takedown. */
  ghost predicate Keeps(before: map<Id, Publication>, after: map<Id, Publication>) {
    forall p {:trigger after[p]} {:trigger before[p]} | p in before ::
      && p in after
      && after[p] == before[p].(availability := after[p].availability)
      && Severity(before[p].availability) <= Severity(after[p].availability)
  }

  lemma KeepsItself(publications: map<Id, Publication>)
    ensures Keeps(publications, publications)
  {
  }

  lemma KeepsChain(a: map<Id, Publication>, b: map<Id, Publication>, c: map<Id, Publication>)
    requires Keeps(a, b) && Keeps(b, c)
    ensures Keeps(a, c)
  {
    forall p | p in a
      ensures p in c && c[p] == a[p].(availability := c[p].availability)
              && Severity(a[p].availability) <= Severity(c[p].availability)
    {
      assert b[p] == a[p].(availability := b[p].availability);
    }
  }

  lemma ListsGrow(ids: map<nat, Id>, count: nat, published: set<Id>, id: Id)
    requires ListsInv(ids, count, published) && id !in published
    ensures ListsInv(ids[count := id], count + 1, published + {id})
  {
    var n := ids[count := id];
    forall p | p in published + {id}
      ensures Listed(n, count + 1, p)
    {
      if p == id {
        assert n[count] == id;
      } else {
        assert Listed(ids, count, p);
        var i: nat :| i < count && i in ids && ids[i] == p;
        assert n[i] == p;
      }
    }
  }

  lemma BindingsGrow(bindings: map<string, Id>, publications: map<Id, Publication>, kind: Kind, id: Id, p: Publication)
    requires BindingsInv(bindings, publications, kind) && id !in publications
    requires Bindable(bindings, IdentityOf(kind, p), id)
    ensures BindingsInv(bindings[IdentityOf(kind, p) := id], publications[id := p], kind)
  {
  }

  /** Changing availability alone moves no identity. */
  lemma BindingsStay(bindings: map<string, Id>, publications: map<Id, Publication>, kind: Kind, id: Id, p: Publication)
    requires BindingsInv(bindings, publications, kind) && id in publications
    requires IdentityOf(kind, p) == IdentityOf(kind, publications[id])
    ensures BindingsInv(bindings, publications[id := p], kind)
  {
  }

  lemma JobsPublish(jobs: map<Id, Job>, publications: map<Id, Publication>, id: Id, j: Job, p: Publication)
    requires JobsInv(jobs, publications) && j.status == Published && PublicationOfJob(p, j)
    ensures JobsInv(jobs[id := j], publications[id := p])
  {
  }

  lemma JobsProgress(jobs: map<Id, Job>, publications: map<Id, Publication>, id: Id, j: Job)
    requires JobsInv(jobs, publications) && id !in publications && j.status == Authorized
    ensures JobsInv(jobs[id := j], publications)
  {
  }

  lemma TakedownsStay(takedowns: map<Id, TakedownRecord>, publications: map<Id, Publication>, id: Id, p: Publication)
    requires TakedownsInv(takedowns, publications) && (id in takedowns <==> p.availability == Takedown)
    ensures TakedownsInv(takedowns, publications[id := p])
  {
  }

  lemma TakedownAdded(takedowns: map<Id, TakedownRecord>, publications: map<Id, Publication>, id: Id, p: Publication, record: TakedownRecord)
    requires TakedownsInv(takedowns, publications) && p.availability == Takedown
    ensures TakedownsInv(takedowns[id := record], publications[id := p])
  {
  }

  lemma FinalizeKeepsIndex(c: Catalog, g: Gov, now: nat, caller: AccountId, s: Submission)
    requires IndexInv(c) && s.jobId !in c.publications
    requires Finalize(c, g, now, caller, s).Some?
    ensures IndexInv(Finalize(c, g, now, caller, s).value)
  {
    var n := Finalize(c, g, now, caller, s).value;
    var p := NewPublication(c.jobs[s.jobId], s, now);
    ListsGrow(c.ids, c.count, c.publications.Keys, s.jobId);
    assert n.publications.Keys == c.publications.Keys + {s.jobId};
    BindingsGrow(c.assets, c.publications, Asset, s.jobId, p);
    BindingsGrow(c.playbacks, c.publications, Playback, s.jobId, p);
    JobsPublish(c.jobs, c.publications, s.jobId, n.jobs[s.jobId], p);
    TakedownsStay(c.takedowns, c.publications, s.jobId, p);
  }

  lemma JobsStay(jobs: map<Id, Job>, publications: map<Id, Publication>, id: Id, p: Publication)
    requires JobsInv(jobs, publications) && id in publications && p == publications[id].(availability := p.availability)
    ensures JobsInv(jobs, publications[id := p])
  {
  }

  /** The parts of the index that a change of availability leaves alone. */
  lemma AvailabilityKeepsIndex(c: Catalog, id: Id, p: Publication)
    requires IndexInv(c) && id in c.publications && p == c.publications[id].(availability := p.availability)
    ensures var publications := c.publications[id := p];
            && ListsInv(c.ids, c.count, publications.Keys)
            && JobsInv(c.jobs, publications)
            && BindingsInv(c.assets, publications, Asset)
            && BindingsInv(c.playbacks, publications, Playback)
  {
    assert c.publications[id := p].Keys == c.publications.Keys;
    BindingsStay(c.assets, c.publications, Asset, id, p);
    BindingsStay(c.playbacks, c.publications, Playback, id, p);
    JobsStay(c.jobs, c.publications, id, p);
  }

  lemma CatalogStepKeepsIndex(c: Catalog, g: Gov, now: nat, caller: AccountId, op: CatalogOp)
    requires IndexInv(c)
    requires ApplyCatalog(c, g, now, caller, op).Some?
    ensures IndexInv(ApplyCatalog(c, g, now, caller, op).value)
  {
    var n := ApplyCatalog(c, g, now, caller, op).value;
    match op
    case KeyReplacement(jobId, key, expires, wellFormed) =>
      JobsProgress(c.jobs, c.publications, jobId, n.jobs[jobId]);
    case JobRestart(jobId, sourceBytes, profile, wellFormed) =>
      JobsProgress(c.jobs, c.publications, jobId, n.jobs[jobId]);
    case Finalization(s) =>
      if s.jobId !in c.publications {
        FinalizeKeepsIndex(c, g, now, caller, s);
      }
    case SalesSuspension(id) =>
      AvailabilityKeepsIndex(c, id, n.publications[id]);
      TakedownsStay(c.takedowns, c.publications, id, n.publications[id]);
    case TakedownOrder(id, record, wellFormed) =>
      if c.publications[id].availability != Takedown {
        AvailabilityKeepsIndex(c, id, n.publications[id]);
        TakedownAdded(c.takedowns, c.publications, id, n.publications[id], n.takedowns[id]);
      }
    case ProfileChoice(enabled, runwayOk) =>
  }

  lemma CatalogStepKeepsPublications(c: Catalog, g: Gov, now: nat, caller: AccountId, op: CatalogOp)
    requires ApplyCatalog(c, g, now, caller, op).Some?
    ensures Keeps(c.publications, ApplyCatalog(c, g, now, caller, op).value.publications)
  {
  }

  /** A new job keeps the index: no publication can already carry its name. */
  lemma NewJobKeepsIndex(c: Catalog, uploads: map<AccountId, Uploads>, jobId: Id, j: Job)
    requires IndexInv(c) && jobId !in c.jobs && j.status == Authorized
    ensures IndexInv(c.(uploads := uploads, jobs := c.jobs[jobId := j]))
  {
    JobsProgress(c.jobs, c.publications, jobId, j);
  }

  // ---------------------------------------------------------------- pages

  /** In a consistent index neither `expect` fires, and the range holds the listed publications in order. */
  lemma {:induction false} RangeIsComplete(c: Catalog, start: nat, end: nat)
    requires ListsInv(c.ids, c.count, c.publications.Keys)
    requires start <= end <= c.count
    ensures ReadRange(c, start, end).Some?
    ensures forall i: nat | i < end - start :: ReadRange(c, start, end).value[i] == c.publications[c.ids[start + i]]
    decreases end - start
  {
    if start < end {
      RangeIsComplete(c, start + 1, end);
    }
  }

  lemma RangeSize(c: Catalog, start: nat, end: nat)
    requires ListsInv(c.ids, c.count, c.publications.Keys) && start <= end <= c.count
    ensures ReadRange(c, start, end).Some? && |ReadRange(c, start, end).value| == end - start
  {
    RangeIsComplete(c, start, end);
  }

  lemma RangeAt(c: Catalog, start: nat, end: nat, k: nat)
    requires ListsInv(c.ids, c.count, c.publications.Keys) && start + k < end <= c.count
    ensures ReadRange(c, start, end).Some? && |ReadRange(c, start, end).value| == end - start
    ensures start + k in c.ids && c.ids[start + k] in c.publications
    ensures ReadRange(c, start, end).value[k] == c.publications[c.ids[start + k]]
  {
    RangeIsComplete(c, start, end);
  }

  lemma RangesJoin(c: Catalog, start: nat, middle: nat, end: nat)
    requires ListsInv(c.ids, c.count, c.publications.Keys)
    requires start <= middle <= end <= c.count
    ensures ReadRange(c, start, middle).Some? && ReadRange(c, middle, end).Some? && ReadRange(c, start, end).Some?
    ensures ReadRange(c, start, middle).value + ReadRange(c, middle, end).value == ReadRange(c, start, end).value
  {
    RangeIsComplete(c, start, middle);
    RangeIsComplete(c, middle, end);
    RangeIsComplete(c, start, end);
    var left, right, all := ReadRange(c, start, middle).value, ReadRange(c, middle, end).value, ReadRange(c, start, end).value;
    forall i: nat | i < |all|
      ensures (left + right)[i] == all[i]
    {
      assert i >= middle - start ==> right[i - (middle - start)] == c.publications[c.ids[start + i]];
    }
  }

  /** A client that asks for pages of `limit` from `from` on, until a page comes back empty. */
  function ReadPages(c: Catalog, from: nat, limit: nat): Option<seq<Publication>>
    decreases c.count - from
  {
    var page := GetPublications(c, Some(from), Some(limit));
    if page.None? then None
    else if page.value == [] then Some([])
    else
      var rest := ReadPages(c, from + |page.value|, limit);
      if rest.None? then None else Some(page.value + rest.value)
  }

  /** Pages of any positive size, put together, are the whole list from the starting position on. */
  lemma {:induction false} PagesAreTheWholeList(c: Catalog, from: nat, limit: nat)
    requires ListsInv(c.ids, c.count, c.publications.Keys)
    requires from <= c.count && limit > 0
    ensures ReadPages(c, from, limit) == ReadRange(c, from, c.count)
    ensures ReadPages(c, from, limit).Some?
    ensures forall i: nat | i < c.count - from :: ReadPages(c, from, limit).value[i] == c.publications[c.ids[from + i]]
    decreases c.count - from
  {
    var end := Min(from + Min(limit, 100), c.count);
    RangeIsComplete(c, from, end);
    RangeIsComplete(c, from, c.count);
    if from < c.count {
      PagesAreTheWholeList(c, end, limit);
      RangesJoin(c, from, end, c.count);
    }
  }
}
