/** Session grants: two maps that must agree, and a bounded cleanup that must not change any answer. */
module AccessControl {
  import opened Common

  const MAX_GRANTS: nat := 16
  const MAX_PAGE: nat := 16

  datatype Scope = Play

  datatype Grant = Grant(
    owner: AccountId,
    key: string,
    scope: Scope,
    resource: Option<string>,
    expiresAt: nat,
    origin: Option<string>,
    device: Option<string>,
    revoked: bool)

  datatype Policy = Policy(maxTtl: nat, requireOrigin: bool, requireDevice: bool)

  /** What the administration of the contract has set. */
  datatype Controls = Controls(
    owner: AccountId,
    market: AccountId,
    paused: bool,
    issuance: bool,
    pausedScopes: set<Scope>,
    policies: map<Scope, Policy>)

  /** The two maps. */
  datatype Book = Book(grants: map<string, Grant>, byOwner: map<AccountId, seq<string>>)

  const EMPTY_BOOK: Book := Book(map[], map[])

  function KeysOf(b: Book, owner: AccountId): seq<string> {
    if owner in b.byOwner then b.byOwner[owner] else []
  }

  /** The grant is gone, revoked or expired. */
  predicate Dead(grants: map<string, Grant>, key: string, now: nat) {
    key in grants ==> grants[key].revoked || now > grants[key].expiresAt
  }

  // ---------------------------------------------------------------- cleanup

  datatype Sweep = Sweep(kept: seq<string>, left: map<string, Grant>, removed: nat)

  /** The loop of `cleanup_owner_grants`. */
  function Swept(keys: seq<string>, grants: map<string, Grant>, now: nat, limit: nat): (s: Sweep)
    ensures |s.kept| + s.removed == |keys| && s.removed <= limit
  {
    if keys == [] then Sweep([], grants, 0)
    else
      var before, key := Swept(keys[..|keys| - 1], grants, now, limit), keys[|keys| - 1];
      if Dead(before.left, key, now) && before.removed < limit then Sweep(before.kept, before.left - {key}, before.removed + 1)
      else before.(kept := before.kept + [key])
  }

  function WithKeys(b: Book, owner: AccountId, keys: seq<string>): Book {
    b.(byOwner := if keys == [] then b.byOwner - {owner} else b.byOwner[owner := keys])
  }

  function Cleaned(b: Book, owner: AccountId, now: nat, limit: nat): Book {
    var s := Swept(KeysOf(b, owner), b.grants, now, limit);
    WithKeys(b.(grants := s.left), owner, s.kept)
  }

  // ---------------------------------------------------------------- issuing and revoking

  datatype Request = Request(
    target: AccountId,
    key: string,
    scope: Scope,
    resource: Option<string>,
    ttl: nat,
    origin: Option<string>,
    device: Option<string>,
    wellFormed: bool,
    proofOk: bool)

  datatype Failure = Refused | LimitReached

  datatype Outcome<+T> = Done(value: T) | Failed(failure: Failure)

  /** Everything that is checked before the maps are looked at. */
  predicate MayIssue(c: Controls, caller: AccountId, r: Request) {
    && !c.paused && c.issuance
    && (caller == r.target || caller == c.owner || caller == c.market)
    && r.scope !in c.pausedScopes && r.scope in c.policies
    && 0 < r.ttl <= c.policies[r.scope].maxTtl
    && r.resource.Some?
    && (c.policies[r.scope].requireOrigin ==> r.origin.Some?)
    && (c.policies[r.scope].requireDevice ==> r.device.Some?)
    && r.wellFormed && r.proofOk
  }

  function NewGrant(r: Request, now: nat): Grant {
    Grant(r.target, r.key, r.scope, r.resource, if now + r.ttl <= U64_MAX then now + r.ttl else U64_MAX, r.origin, r.device, false)
  }

  function Issue(b: Book, c: Controls, now: nat, caller: AccountId, r: Request): Outcome<Book> {
    if !MayIssue(c, caller, r) || (r.key in b.grants && b.grants[r.key].owner != r.target) then Failed(Refused)
    else
      var n := Cleaned(b, r.target, now, MAX_GRANTS);
      var keys := KeysOf(n, r.target);
      if r.key !in keys && |keys| >= MAX_GRANTS then Failed(LimitReached)
      else
        var listed := if r.key in keys then n else n.(byOwner := n.byOwner[r.target := keys + [r.key]]);
        Done(listed.(grants := listed.grants[r.key := NewGrant(r, now)]))
  }

  function Revoke(b: Book, c: Controls, caller: AccountId, key: string): Outcome<Book> {
    if key !in b.grants || !(caller == b.grants[key].owner || caller == c.owner) then Failed(Refused)
    else Done(b.(grants := b.grants[key := b.grants[key].(revoked := true)]))
  }

  /** The loop of `revoke_subject_sessions`. */
  function RevokeAll(grants: map<string, Grant>, keys: seq<string>): map<string, Grant> {
    if keys == [] then grants
    else
      var before, key := RevokeAll(grants, keys[..|keys| - 1]), keys[|keys| - 1];
      if key in before then before[key := before[key].(revoked := true)] else before
  }

  function RevokeSubject(b: Book, c: Controls, caller: AccountId, owner: AccountId): Outcome<Book> {
    if !(caller == owner || caller == c.owner) then Failed(Refused)
    else Done(b.(grants := RevokeAll(b.grants, KeysOf(b, owner))))
  }

  function CleanUp(b: Book, owner: AccountId, now: nat, limit: Option<nat>): Outcome<Book> {
    var n := limit.GetOr(MAX_PAGE);
    if n == 0 || n > MAX_PAGE then Failed(Refused) else Done(Cleaned(b, owner, now, n))
  }

  // ---------------------------------------------------------------- answers

  datatype Reason = ContractPaused | ScopePaused | NotFound | Revoked | Expired | ScopeMismatch | ResourceMismatch | OriginMismatch | DeviceMismatch

  datatype Verdict = Verdict(valid: bool, owner: Option<AccountId>, reason: Option<Reason>)

  predicate Bound(binding: Option<string>, given: Option<string>) {
    binding.Some? ==> binding == given
  }

  function Verify(b: Book, c: Controls, now: nat, key: string, scope: Scope, resource: Option<string>, origin: Option<string>, device: Option<string>): Verdict {
    if c.paused then Verdict(false, None, Some(ContractPaused))
    else if scope in c.pausedScopes then Verdict(false, None, Some(ScopePaused))
    else if key !in b.grants then Verdict(false, None, Some(NotFound))
    else
      var g := b.grants[key];
      if g.revoked then Verdict(false, Some(g.owner), Some(Revoked))
      else if now > g.expiresAt then Verdict(false, Some(g.owner), Some(Expired))
      else if g.scope != scope then Verdict(false, Some(g.owner), Some(ScopeMismatch))
      else if !Bound(g.resource, resource) then Verdict(false, Some(g.owner), Some(ResourceMismatch))
      else if !Bound(g.origin, origin) then Verdict(false, Some(g.owner), Some(OriginMismatch))
      else if !Bound(g.device, device) then Verdict(false, Some(g.owner), Some(DeviceMismatch))
      else Verdict(true, Some(g.owner), None)
  }

  predicate Allows(grants: map<string, Grant>, key: string, now: nat, scope: Scope, resource: Option<string>) {
    !Dead(grants, key, now) && grants[key].scope == scope && grants[key].resource == resource
  }

  predicate CanExecute(b: Book, c: Controls, now: nat, owner: AccountId, scope: Scope, resource: Option<string>) {
    !c.paused && scope !in c.pausedScopes && exists key :: key in KeysOf(b, owner) && Allows(b.grants, key, now, scope, resource)
  }

  function Listed(grants: map<string, Grant>, keys: seq<string>): seq<Grant> {
    if keys == [] then [] else (if keys[0] in grants then [grants[keys[0]]] else []) + Listed(grants, keys[1..])
  }

  function Page(b: Book, owner: AccountId, from: nat, limit: nat): seq<Grant> {
    var keys := KeysOf(b, owner);
    var rest := if from <= |keys| then keys[from..] else [];
    Listed(b.grants, if limit <= |rest| then rest[..limit] else rest)
  }

  /** `list_session_grants` */
  function ListGrants(b: Book, owner: AccountId, from: Option<nat>, limit: Option<nat>): Outcome<seq<Grant>> {
    var n := limit.GetOr(MAX_PAGE);
    if n == 0 || n > MAX_PAGE then Failed(Refused) else Done(Page(b, owner, from.GetOr(0), n))
  }

  // ---------------------------------------------------------------- the maps agree

  predicate Distinct(keys: seq<string>) {
    forall i, j | 0 <= i < j < |keys| :: keys[i] != keys[j]
  }

  /** One owner's list: at most sixteen distinct keys, each with a grant of that owner. */
  predicate ListOk(grants: map<string, Grant>, owner: AccountId, keys: seq<string>) {
    && 0 < |keys| <= MAX_GRANTS && Distinct(keys)
    && forall key | key in keys :: key in grants && grants[key].owner == owner
  }

  ghost predicate Agree(b: Book) {
    && (forall o {:trigger b.byOwner[o]} | o in b.byOwner :: ListOk(b.grants, o, b.byOwner[o]))
    && (forall key {:trigger b.grants[key]} | key in b.grants ::
          b.grants[key].key == key && b.grants[key].owner in b.byOwner && key in b.byOwner[b.grants[key].owner])
  }

  lemma {:induction false} TwiceIsTwoPlaces(keys: seq<string>, key: string)
    requires Distinct(keys)
    ensures multiset(keys)[key] <= 1
  {
    if keys != [] {
      var n := |keys| - 1;
      assert keys == keys[..n] + [keys[n]];
      TwiceIsTwoPlaces(keys[..n], key);
      if key == keys[n] {
        assert key !in keys[..n];
      }
    }
  }

  /** A key is in an owner's list exactly once if and only if its grant exists with that owner. */
  lemma ListsMatchGrants(b: Book, owner: AccountId, key: string)
    requires Agree(b)
    ensures key in KeysOf(b, owner) <==> key in b.grants && b.grants[key].owner == owner
    ensures multiset(KeysOf(b, owner))[key] <= 1 && |KeysOf(b, owner)| <= MAX_GRANTS
  {
    var keys := KeysOf(b, owner);
    if multiset(keys)[key] > 1 {
      TwiceIsTwoPlaces(keys, key);
    }
  }

  // ---------------------------------------------------------------- what a sweep does

  function Filtered(keys: seq<string>, gone: set<string>): seq<string> {
    if keys == [] then []
    else Filtered(keys[..|keys| - 1], gone) + (if keys[|keys| - 1] in gone then [] else [keys[|keys| - 1]])
  }

  ghost function DeadKeys(keys: seq<string>, grants: map<string, Grant>, now: nat): set<string> {
    set key | key in keys && Dead(grants, key, now)
  }

  /** The first `limit` dead keys of the list. */
  ghost function Gone(keys: seq<string>, grants: map<string, Grant>, now: nat, limit: nat): set<string> {
    if keys == [] then {}
    else
      var before, key := Gone(keys[..|keys| - 1], grants, now, limit), keys[|keys| - 1];
      if Dead(grants, key, now) && |before| < limit then before + {key} else before
  }

  lemma {:induction false} FilterIgnores(keys: seq<string>, gone: set<string>, extra: string)
    requires extra !in keys
    ensures Filtered(keys, gone + {extra}) == Filtered(keys, gone)
  {
    if keys != [] {
      FilterIgnores(keys[..|keys| - 1], gone, extra);
    }
  }

  lemma StillDead(grants: map<string, Grant>, gone: set<string>, key: string, now: nat)
    requires key !in gone
    ensures Dead(grants - gone, key, now) == Dead(grants, key, now)
    ensures grants - (gone + {key}) == grants - gone - {key}
  {
  }

  lemma FilterStep(front: seq<string>, key: string, gone: set<string>)
    requires key !in front && key !in gone
    ensures Filtered(front + [key], gone + {key}) == Filtered(front, gone)
    ensures Filtered(front + [key], gone) == Filtered(front, gone) + [key]
  {
    assert (front + [key])[..|front|] == front;
    FilterIgnores(front, gone, key);
  }

  /** One more key: whether it is dead does not depend on what was removed before it. */
  lemma SweepStep(front: seq<string>, key: string, grants: map<string, Grant>, now: nat, limit: nat)
    requires key !in front && key !in Gone(front, grants, now, limit)
    requires var before, gone := Swept(front, grants, now, limit), Gone(front, grants, now, limit);
             before.left == grants - gone && before.removed == |gone| && before.kept == Filtered(front, gone)
    ensures var s, gone := Swept(front + [key], grants, now, limit), Gone(front + [key], grants, now, limit);
            s.left == grants - gone && s.removed == |gone| && s.kept == Filtered(front + [key], gone)
  {
    var gone := Gone(front, grants, now, limit);
    assert (front + [key])[..|front|] == front;
    FilterStep(front, key, gone);
    StillDead(grants, gone, key, now);
    hide Filtered, Dead;
  }

  lemma DeadStep(front: seq<string>, key: string, grants: map<string, Grant>, now: nat)
    requires key !in front
    ensures DeadKeys(front + [key], grants, now) == DeadKeys(front, grants, now) + (if Dead(grants, key, now) then {key} else {})
    ensures key !in DeadKeys(front, grants, now)
  {
    hide Dead;
  }

  lemma LastIsNew(keys: seq<string>)
    requires keys != [] && Distinct(keys)
    ensures var front, key := keys[..|keys| - 1], keys[|keys| - 1];
            keys == front + [key] && Distinct(front) && key !in front
  {
  }

  /** How many dead keys a bounded choice takes. */
  lemma {:induction false} GoneCounts(keys: seq<string>, grants: map<string, Grant>, now: nat, limit: nat)
    requires Distinct(keys)
    ensures var gone, dead := Gone(keys, grants, now, limit), DeadKeys(keys, grants, now);
            gone <= dead && |gone| == (if |dead| < limit then |dead| else limit)
  {
    if keys == [] {
      assert DeadKeys(keys, grants, now) == {};
    } else {
      var front, key := keys[..|keys| - 1], keys[|keys| - 1];
      LastIsNew(keys);
      GoneCounts(front, grants, now, limit);
      DeadStep(front, key, grants, now);
      hide Distinct, Dead, DeadKeys;
    }
  }

  lemma {:induction false} SweepTakesGone(keys: seq<string>, grants: map<string, Grant>, now: nat, limit: nat)
    requires Distinct(keys)
    ensures var s, gone := Swept(keys, grants, now, limit), Gone(keys, grants, now, limit);
            s.left == grants - gone && s.removed == |gone| && s.kept == Filtered(keys, gone)
  {
    if keys == [] {
      assert grants - {} == grants;
    } else {
      var front, key := keys[..|keys| - 1], keys[|keys| - 1];
      LastIsNew(keys);
      SweepTakesGone(front, grants, now, limit);
      GoneCounts(front, grants, now, limit);
      DeadStep(front, key, grants, now);
      hide Swept, Gone, Filtered, Dead, DeadKeys, Distinct;
      SweepStep(front, key, grants, now, limit);
    }
  }

  /**
   A sweep of distinct keys removes exactly min(limit, dead) of the dead ones, and nothing else;
   the others stay in their order, and exactly the removed keys lose their grants.
   */
  lemma SweepIsExact(keys: seq<string>, grants: map<string, Grant>, now: nat, limit: nat)
    requires Distinct(keys)
    ensures var s, gone, dead := Swept(keys, grants, now, limit), Gone(keys, grants, now, limit), DeadKeys(keys, grants, now);
            && gone <= dead && |gone| == s.removed == (if |dead| < limit then |dead| else limit)
            && s.kept == Filtered(keys, gone) && s.left == grants - gone
  {
    GoneCounts(keys, grants, now, limit);
    SweepTakesGone(keys, grants, now, limit);
  }

  lemma {:induction false} FilteredHas(keys: seq<string>, gone: set<string>)
    ensures forall k :: k in Filtered(keys, gone) <==> k in keys && k !in gone
    ensures |Filtered(keys, gone)| <= |keys|
    ensures Distinct(keys) ==> Distinct(Filtered(keys, gone))
  {
    if keys != [] {
      var front, key := keys[..|keys| - 1], keys[|keys| - 1];
      assert keys == front + [key];
      FilteredHas(front, gone);
      if Distinct(keys) {
        assert key !in front && Distinct(front);
      }
    }
  }

  /** What cleaning one owner's grants leaves, for a book whose maps agree. */
  lemma CleanedShape(b: Book, owner: AccountId, now: nat, limit: nat)
    requires Agree(b)
    ensures var n, gone := Cleaned(b, owner, now, limit), Gone(KeysOf(b, owner), b.grants, now, limit);
            && gone <= DeadKeys(KeysOf(b, owner), b.grants, now)
            && KeysOf(n, owner) == Filtered(KeysOf(b, owner), gone)
            && n.grants == b.grants - gone
            && (forall o | o != owner :: (o in n.byOwner <==> o in b.byOwner) && KeysOf(n, o) == KeysOf(b, o))
            && (owner in n.byOwner <==> KeysOf(n, owner) != [])
  {
    SweepIsExact(KeysOf(b, owner), b.grants, now, limit);
  }

  lemma CleanupKeepsAgree(b: Book, owner: AccountId, now: nat, limit: nat)
    requires Agree(b)
    ensures Agree(Cleaned(b, owner, now, limit))
  {
    var n := Cleaned(b, owner, now, limit);
    var keys := KeysOf(b, owner);
    var gone := Gone(keys, b.grants, now, limit);
    CleanedShape(b, owner, now, limit);
    FilteredHas(keys, gone);
    hide Swept, Filtered, Cleaned, DeadKeys;
    forall o | o in n.byOwner
      ensures ListOk(n.grants, o, n.byOwner[o])
    {
      assert n.byOwner[o] == KeysOf(n, o);
      assert ListOk(b.grants, o, b.byOwner[o]);
      forall key | key in n.byOwner[o]
        ensures key in n.grants && n.grants[key].owner == o
      {
        assert key in b.grants && b.grants[key].owner == o;
        ListsMatchGrants(b, owner, key);
      }
    }
    forall key | key in n.grants
      ensures n.grants[key].key == key && n.grants[key].owner in n.byOwner && key in n.byOwner[n.grants[key].owner]
    {
      assert b.grants[key].owner in b.byOwner && key in b.byOwner[b.grants[key].owner];
      assert KeysOf(n, n.grants[key].owner) != [];
    }
  }

  /** A dead grant counts for nothing, so a grant that is gone and was dead is not missed. */
  lemma DeadIsNotMissed(b: Book, n: Book, gone: set<string>, c: Controls, now: nat, later: nat, key: string,
                        scope: Scope, resource: Option<string>, origin: Option<string>, device: Option<string>)
    requires n.grants == b.grants - gone && (forall k | k in gone :: Dead(b.grants, k, now)) && now <= later
    ensures Verify(n, c, later, key, scope, resource, origin, device).valid == Verify(b, c, later, key, scope, resource, origin, device).valid
    ensures key in n.grants ==> Verify(n, c, later, key, scope, resource, origin, device) == Verify(b, c, later, key, scope, resource, origin, device)
    ensures Allows(n.grants, key, later, scope, resource) == Allows(b.grants, key, later, scope, resource)
    ensures Allows(b.grants, key, later, scope, resource) ==> key !in gone
  {
  }

  lemma SameExecution(b: Book, n: Book, gone: set<string>, c: Controls, now: nat, later: nat, asked: AccountId, scope: Scope, resource: Option<string>)
    requires n.grants == b.grants - gone && (forall k | k in gone :: Dead(b.grants, k, now)) && now <= later
    requires forall k :: k in KeysOf(n, asked) ==> k in KeysOf(b, asked)
    requires forall k :: k in KeysOf(b, asked) && k !in gone ==> k in KeysOf(n, asked)
    ensures CanExecute(n, c, later, asked, scope, resource) == CanExecute(b, c, later, asked, scope, resource)
  {
    hide Allows, Dead, KeysOf;
    if CanExecute(b, c, later, asked, scope, resource) {
      var k :| k in KeysOf(b, asked) && Allows(b.grants, k, later, scope, resource);
      DeadIsNotMissed(b, n, gone, c, now, later, k, scope, resource, None, None);
      assert k in KeysOf(n, asked);
    }
    if CanExecute(n, c, later, asked, scope, resource) {
      var k :| k in KeysOf(n, asked) && Allows(n.grants, k, later, scope, resource);
      DeadIsNotMissed(b, n, gone, c, now, later, k, scope, resource, None, None);
      assert k in KeysOf(b, asked);
    }
  }

  /**
   Cleanup changes no validity of `verify_session_grant` and no result of `can_execute`, for any
   key, owner, binding or later time, and no answer at all about a key that it keeps.
   */
  lemma CleanupChangesNoAnswer(b: Book, c: Controls, owner: AccountId, now: nat, limit: nat, later: nat,
                               key: string, asked: AccountId, scope: Scope, resource: Option<string>, origin: Option<string>, device: Option<string>)
    requires Agree(b) && now <= later
    ensures var n := Cleaned(b, owner, now, limit);
            && Verify(n, c, later, key, scope, resource, origin, device).valid == Verify(b, c, later, key, scope, resource, origin, device).valid
            && CanExecute(n, c, later, asked, scope, resource) == CanExecute(b, c, later, asked, scope, resource)
            && (key in n.grants ==> Verify(n, c, later, key, scope, resource, origin, device) == Verify(b, c, later, key, scope, resource, origin, device))
  {
    var n := Cleaned(b, owner, now, limit);
    var gone := Gone(KeysOf(b, owner), b.grants, now, limit);
    CleanedShape(b, owner, now, limit);
    FilteredHas(KeysOf(b, owner), gone);
    hide Swept, Filtered, Cleaned, Gone, Verify, CanExecute, Dead;
    DeadIsNotMissed(b, n, gone, c, now, later, key, scope, resource, origin, device);
    SameExecution(b, n, gone, c, now, later, asked, scope, resource);
  }

  // ---------------------------------------------------------------- the other calls

  lemma NewGrantIsFor(r: Request, now: nat)
    ensures NewGrant(r, now).owner == r.target && NewGrant(r, now).key == r.key
  {
  }

  lemma AddingKeepsAgree(m: Book, r: Request, now: nat)
    requires Agree(m) && (r.key in m.grants ==> m.grants[r.key].owner == r.target)
    requires r.key in KeysOf(m, r.target) || |KeysOf(m, r.target)| < MAX_GRANTS
    ensures var keys := KeysOf(m, r.target);
            var listed := if r.key in keys then m else m.(byOwner := m.byOwner[r.target := keys + [r.key]]);
            Agree(listed.(grants := listed.grants[r.key := NewGrant(r, now)]))
  {
    hide NewGrant;
    var keys := KeysOf(m, r.target);
    var listed := if r.key in keys then m else m.(byOwner := m.byOwner[r.target := keys + [r.key]]);
    var g := NewGrant(r, now);
    assert g.owner == r.target && g.key == r.key by { NewGrantIsFor(r, now); }
    var n := listed.(grants := listed.grants[r.key := g]);
    forall o | o in n.byOwner
      ensures ListOk(n.grants, o, n.byOwner[o])
    {
      assert o in m.byOwner ==> ListOk(m.grants, o, m.byOwner[o]);
      forall key | key in n.byOwner[o]
        ensures key in n.grants && n.grants[key].owner == o
      {
        ListsMatchGrants(m, o, key);
      }
    }
    forall key | key in n.grants
      ensures n.grants[key].key == key && n.grants[key].owner in n.byOwner && key in n.byOwner[n.grants[key].owner]
    {
      if key != r.key {
        assert m.grants[key].owner in m.byOwner && key in m.byOwner[m.grants[key].owner];
      }
    }
  }

  lemma IssueKeepsAgree(b: Book, c: Controls, now: nat, caller: AccountId, r: Request)
    requires Agree(b) && Issue(b, c, now, caller, r).Done?
    ensures Agree(Issue(b, c, now, caller, r).value)
  {
    CleanupKeepsAgree(b, r.target, now, MAX_GRANTS);
    var m := Cleaned(b, r.target, now, MAX_GRANTS);
    CleanedShape(b, r.target, now, MAX_GRANTS);
    hide Cleaned, Swept;
    AddingKeepsAgree(m, r, now);
  }

  /** Grants change nothing but their revocation. */
  predicate SameGrants(g: map<string, Grant>, n: map<string, Grant>) {
    g.Keys == n.Keys && forall k | k in g :: n[k] == g[k].(revoked := n[k].revoked) && (g[k].revoked ==> n[k].revoked)
  }

  lemma RevokingKeepsAgree(b: Book, grants: map<string, Grant>)
    requires Agree(b) && SameGrants(b.grants, grants)
    ensures Agree(b.(grants := grants))
  {
    forall o | o in b.byOwner
      ensures ListOk(grants, o, b.byOwner[o])
    {
      assert ListOk(b.grants, o, b.byOwner[o]);
    }
  }

  /** Revoking a subject revokes exactly the grants on its list. */
  lemma {:induction false} RevokeAllIsExact(grants: map<string, Grant>, keys: seq<string>)
    ensures var n := RevokeAll(grants, keys);
            && SameGrants(grants, n)
            && forall k | k in grants :: n[k].revoked == (grants[k].revoked || k in keys)
  {
    if keys != [] {
      assert keys == keys[..|keys| - 1] + [keys[|keys| - 1]];
      RevokeAllIsExact(grants, keys[..|keys| - 1]);
    }
  }

  /** After a subject's sessions are revoked, none of its keys is valid and it can execute nothing. */
  lemma RevokedSubjectCanDoNothing(b: Book, c: Controls, caller: AccountId, owner: AccountId, now: nat, key: string, scope: Scope,
                                   resource: Option<string>, origin: Option<string>, device: Option<string>)
    requires Agree(b) && RevokeSubject(b, c, caller, owner).Done?
    ensures var n := RevokeSubject(b, c, caller, owner).value;
            && !CanExecute(n, c, now, owner, scope, resource)
            && (key in b.grants && b.grants[key].owner == owner ==> !Verify(n, c, now, key, scope, resource, origin, device).valid)
  {
    RevokeAllIsExact(b.grants, KeysOf(b, owner));
    ListsMatchGrants(b, owner, key);
    hide RevokeAll;
    var n := RevokeSubject(b, c, caller, owner).value;
    forall k | k in KeysOf(n, owner)
      ensures !Allows(n.grants, k, now, scope, resource)
    {
      ListsMatchGrants(b, owner, k);
    }
  }

  // ---------------------------------------------------------------- the limit

  /** The owner's live grants, apart from one key. */
  ghost function LiveOthers(b: Book, owner: AccountId, now: nat, key: string): set<string> {
    set k | k in b.grants && b.grants[k].owner == owner && !Dead(b.grants, k, now) && k != key
  }

  lemma {:induction false} DistinctSize(keys: seq<string>)
    requires Distinct(keys)
    ensures |(set k | k in keys)| == |keys|
  {
    if keys != [] {
      var front, key := keys[..|keys| - 1], keys[|keys| - 1];
      assert keys == front + [key];
      DistinctSize(front);
      assert (set k | k in keys) == (set k | k in front) + {key};
    }
  }

  lemma SubsetSize(a: set<string>, b: set<string>)
    requires a <= b
    ensures |a| <= |b|
  {
    assert b == a + (b - a);
  }

  lemma SubsetEqual(a: set<string>, b: set<string>)
    requires a <= b && |a| == |b|
    ensures a == b
  {
    assert b == a + (b - a);
  }

  /** Sixteen removals are enough for every dead grant, so what is left on the list is live. */
  lemma CleanedIsLive(b: Book, owner: AccountId, now: nat)
    requires Agree(b)
    ensures forall k :: k in KeysOf(Cleaned(b, owner, now, MAX_GRANTS), owner)
                        <==> k in b.grants && b.grants[k].owner == owner && !Dead(b.grants, k, now)
  {
    var keys := KeysOf(b, owner);
    var gone, dead := Gone(keys, b.grants, now, MAX_GRANTS), DeadKeys(keys, b.grants, now);
    CleanedShape(b, owner, now, MAX_GRANTS);
    FilteredHas(keys, gone);
    SweepIsExact(keys, b.grants, now, MAX_GRANTS);
    DistinctSize(keys);
    assert |dead| <= |(set k | k in keys)| by { SubsetSize(dead, set k | k in keys); }
    SubsetEqual(gone, dead);
    forall k
      ensures k in keys <==> k in b.grants && b.grants[k].owner == owner
    {
      ListsMatchGrants(b, owner, k);
    }
  }

  lemma CleanedCount(b: Book, owner: AccountId, now: nat, key: string)
    requires Agree(b)
    ensures var keys := KeysOf(Cleaned(b, owner, now, MAX_GRANTS), owner);
            |keys| <= MAX_GRANTS && |keys| == |LiveOthers(b, owner, now, key)| + (if key in keys then 1 else 0)
  {
    var n := Cleaned(b, owner, now, MAX_GRANTS);
    var keys := KeysOf(n, owner);
    CleanedIsLive(b, owner, now);
    CleanupKeepsAgree(b, owner, now, MAX_GRANTS);
    hide Cleaned, Swept, Dead;
    assert |keys| <= MAX_GRANTS && Distinct(keys) by {
      if owner in n.byOwner {
        assert ListOk(n.grants, owner, n.byOwner[owner]);
      }
    }
    DistinctSize(keys);
    assert (set k | k in keys) == LiveOthers(b, owner, now, key) + (if key in keys then {key} else {});
  }

  /** An allowed request fails for the limit exactly when the target holds sixteen live grants on other keys. */
  lemma LimitMeansSixteenLive(b: Book, c: Controls, now: nat, caller: AccountId, r: Request)
    requires Agree(b) && MayIssue(c, caller, r) && (r.key in b.grants ==> b.grants[r.key].owner == r.target)
    ensures Issue(b, c, now, caller, r) == Failed(LimitReached) <==> |LiveOthers(b, r.target, now, r.key)| >= MAX_GRANTS
    ensures Issue(b, c, now, caller, r) == Failed(LimitReached) ==> |LiveOthers(b, r.target, now, r.key)| == MAX_GRANTS
  {
    CleanedCount(b, r.target, now, r.key);
    hide Cleaned, NewGrant, MayIssue, LiveOthers;
  }

  // ---------------------------------------------------------------- every run

  datatype Call =
    | Issuing(request: Request)
    | Revoking(key: string)
    | RevokingSubject(subject: AccountId)
    | Cleaning(subject: AccountId, limit: Option<nat>)

  /** One call, under whatever administration holds at the time. */
  datatype Step = Step(controls: Controls, now: nat, caller: AccountId, call: Call)

  function Result(b: Book, s: Step): Outcome<Book> {
    match s.call
    case Issuing(request) => Issue(b, s.controls, s.now, s.caller, request)
    case Revoking(key) => Revoke(b, s.controls, s.caller, key)
    case RevokingSubject(subject) => RevokeSubject(b, s.controls, s.caller, subject)
    case Cleaning(subject, limit) => CleanUp(b, subject, s.now, limit)
  }

  /** A failed call changes nothing. */
  function After(b: Book, s: Step): Book {
    if Result(b, s).Done? then Result(b, s).value else b
  }

  function BookAfter(steps: seq<Step>): Book {
    if steps == [] then EMPTY_BOOK else After(BookAfter(steps[..|steps| - 1]), steps[|steps| - 1])
  }

  lemma StepKeepsAgree(b: Book, s: Step)
    requires Agree(b)
    ensures Agree(After(b, s))
  {
    if Result(b, s).Done? {
      match s.call
      case Issuing(request) => IssueKeepsAgree(b, s.controls, s.now, s.caller, request);
      case Revoking(key) => RevokingKeepsAgree(b, After(b, s).grants);
      case RevokingSubject(subject) =>
        RevokeAllIsExact(b.grants, KeysOf(b, subject));
        RevokingKeepsAgree(b, After(b, s).grants);
      case Cleaning(subject, limit) => CleanupKeepsAgree(b, subject, s.now, limit.GetOr(MAX_PAGE));
    }
  }

  /** The maps agree after every sequence of calls, at whatever times and under whatever administration. */
  lemma {:induction false} MapsAlwaysAgree(steps: seq<Step>)
    ensures Agree(BookAfter(steps))
  {
    if steps != [] {
      MapsAlwaysAgree(steps[..|steps| - 1]);
      hide After;
      StepKeepsAgree(BookAfter(steps[..|steps| - 1]), steps[|steps| - 1]);
    }
  }

  // ---------------------------------------------------------------- pages

  lemma {:induction false} ListedIsComplete(grants: map<string, Grant>, keys: seq<string>)
    requires forall k | k in keys :: k in grants
    ensures |Listed(grants, keys)| == |keys| && forall i | 0 <= i < |keys| :: Listed(grants, keys)[i] == grants[keys[i]]
  {
    if keys != [] {
      ListedIsComplete(grants, keys[1..]);
      assert forall i | 0 < i < |keys| :: keys[1..][i - 1] == keys[i];
    }
  }

  /** The grant at this place of the owner's list. */
  predicate IsGrant(b: Book, owner: AccountId, place: nat, g: Grant) {
    var keys := KeysOf(b, owner);
    place < |keys| && keys[place] in b.grants && g == b.grants[keys[place]]
  }

  lemma PageIs(b: Book, owner: AccountId, from: nat, limit: nat)
    requires Agree(b)
    ensures var keys, page := KeysOf(b, owner), Page(b, owner, from, limit);
            && |page| == (if from + limit <= |keys| then limit else if from <= |keys| then |keys| - from else 0)
            && forall i | 0 <= i < |page| :: IsGrant(b, owner, from + i, page[i])
  {
    var keys := KeysOf(b, owner);
    forall k | k in keys
      ensures k in b.grants
    {
      ListsMatchGrants(b, owner, k);
    }
    var rest := if from <= |keys| then keys[from..] else [];
    ListedIsComplete(b.grants, if limit <= |rest| then rest[..limit] else rest);
  }

  /** A client that asks for page after page until it has passed the end of the list; `None` is a refusal. */
  function ReadPages(b: Book, owner: AccountId, from: nat, limit: nat): Option<seq<Grant>>
    decreases |KeysOf(b, owner)| - from
  {
    var page := ListGrants(b, owner, Some(from), Some(limit));
    if page.Failed? then None
    else if from >= |KeysOf(b, owner)| then Some([])
    else
      var rest := ReadPages(b, owner, from + limit, limit);
      if rest.None? then None else Some(page.value + rest.value)
  }

  lemma {:induction false} ReadPagesAre(b: Book, owner: AccountId, from: nat, limit: nat)
    requires Agree(b) && 0 < limit <= MAX_PAGE && from <= |KeysOf(b, owner)| + limit
    ensures ReadPages(b, owner, from, limit).Some?
    ensures var keys, all := KeysOf(b, owner), ReadPages(b, owner, from, limit).value;
            && |all| == (if from <= |keys| then |keys| - from else 0)
            && forall i | 0 <= i < |all| :: IsGrant(b, owner, from + i, all[i])
    decreases |KeysOf(b, owner)| + limit - from
  {
    hide Page, Agree, KeysOf, IsGrant;
    if from < |KeysOf(b, owner)| {
      PageIs(b, owner, from, limit);
      ReadPagesAre(b, owner, from + limit, limit);
      var page, rest := Page(b, owner, from, limit), ReadPages(b, owner, from + limit, limit).value;
      forall i | 0 <= i < |page + rest|
        ensures IsGrant(b, owner, from + i, (page + rest)[i])
      {
        if i < |page| {
          assert IsGrant(b, owner, from + i, page[i]);
        } else {
          assert IsGrant(b, owner, from + limit + (i - limit), rest[i - limit]);
        }
      }
    }
  }

  /**
   Pages of any accepted size, put together, list each grant of the owner exactly once, in the
   order of its list; a size is accepted exactly from 1 to 16, and 16 is the default.
   */
  lemma PagesAreComplete(b: Book, owner: AccountId, limit: nat)
    requires Agree(b)
    ensures ReadPages(b, owner, 0, limit).Some? <==> 0 < limit <= MAX_PAGE
    ensures ListGrants(b, owner, None, None) == ListGrants(b, owner, Some(0), Some(MAX_PAGE))
    ensures var keys := KeysOf(b, owner);
            0 < limit <= MAX_PAGE ==>
              var all := ReadPages(b, owner, 0, limit).value;
              && |all| == |keys| && (forall i | 0 <= i < |keys| :: keys[i] in b.grants && all[i] == b.grants[keys[i]])
              && (forall k | k in b.grants && b.grants[k].owner == owner :: b.grants[k] in all)
  {
    if 0 < limit <= MAX_PAGE {
      ReadPagesAre(b, owner, 0, limit);
      var keys, all := KeysOf(b, owner), ReadPages(b, owner, 0, limit).value;
      forall i | 0 <= i < |keys|
        ensures keys[i] in b.grants && all[i] == b.grants[keys[i]]
      {
        assert IsGrant(b, owner, 0 + i, all[i]);
      }
      forall k | k in b.grants && b.grants[k].owner == owner
        ensures b.grants[k] in all
      {
        ListsMatchGrants(b, owner, k);
        var i :| 0 <= i < |keys| && keys[i] == k;
        assert all[i] == b.grants[k];
      }
    }
  }

  // ---------------------------------------------------------------- the contract object

  class Registry {
    var contractOwner: AccountId
    var marketContract: AccountId
    var paused: bool
    var issuanceEnabled: bool
    var pausedScopes: set<Scope>
    var policies: map<Scope, Policy>
    var grants: map<string, Grant>
    var grantsByOwner: map<AccountId, seq<string>>
    ghost var steps: seq<Step>

    ghost function Abs(): Book
      reads `grants, `grantsByOwner
    {
      Book(grants, grantsByOwner)
    }

    ghost function AbsControls(): Controls
      reads `contractOwner, `marketContract, `paused, `issuanceEnabled, `pausedScopes, `policies
    {
      Controls(contractOwner, marketContract, paused, issuanceEnabled, pausedScopes, policies)
    }

    /** The two maps are what the recorded calls lead to. */
    ghost predicate Valid()
      reads `grants, `grantsByOwner, `steps
    {
      Abs() == BookAfter(steps)
    }

    constructor (owner: AccountId, market: AccountId)
      ensures Valid() && Abs() == EMPTY_BOOK && steps == []
      ensures AbsControls() == Controls(owner, market, false, true, {}, map[Play := Policy(600_000, true, true)])
    {
      contractOwner, marketContract := owner, market;
      paused, issuanceEnabled, pausedScopes := false, true, {};
      policies := map[Play := Policy(600_000, true, true)];
      grants, grantsByOwner, steps := map[], map[], [];
    }

    /** `cleanup_owner_grants` */
    method CleanupOwnerGrants(owner: AccountId, now: nat, limit: nat) returns (removed: nat)
      modifies `grants, `grantsByOwner
      ensures Abs() == old(Cleaned(Abs(), owner, now, limit))
      ensures removed == old(Swept(KeysOf(Abs(), owner), grants, now, limit)).removed
    {
      var keys := if owner in grantsByOwner then grantsByOwner[owner] else [];
      ghost var before := grants;
      var kept := [];
      removed := 0;
      for i := 0 to |keys|
        invariant grantsByOwner == old(grantsByOwner)
        invariant Sweep(kept, grants, removed) == Swept(keys[..i], before, now, limit)
      {
        assert keys[..i + 1][..i] == keys[..i];
        var key := keys[i];
        var eligible := if key in grants then grants[key].revoked || now > grants[key].expiresAt else true;
        if eligible && removed < limit {
          grants := grants - {key};
          removed := removed + 1;
        } else {
          kept := kept + [key];
        }
      }
      assert keys[..|keys|] == keys;
      if kept == [] {
        grantsByOwner := grantsByOwner - {owner};
      } else {
        grantsByOwner := grantsByOwner[owner := kept];
      }
    }

    /** The checks of `issue_session_grant` on the request alone. */
    method CheckRequest(caller: AccountId, r: Request) returns (ok: bool)
      ensures ok == MayIssue(AbsControls(), caller, r)
    {
      if paused || !issuanceEnabled { return false; }
      if caller != r.target && caller != contractOwner && caller != marketContract { return false; }
      if r.scope in pausedScopes || r.scope !in policies { return false; }
      var policy := policies[r.scope];
      if r.ttl == 0 || r.ttl > policy.maxTtl || r.resource.None? { return false; }
      if (policy.requireOrigin && r.origin.None?) || (policy.requireDevice && r.device.None?) { return false; }
      return r.wellFormed && r.proofOk;
    }

    /** `issue_session_grant`; a panic takes the cleanup back too. */
    method IssueSessionGrant(now: nat, caller: AccountId, r: Request) returns (result: Outcome<Grant>)
      modifies `grants, `grantsByOwner
      ensures var outcome := old(Issue(Abs(), AbsControls(), now, caller, r));
              match result
              case Done(g) => outcome == Done(Abs()) && r.key in grants && grants[r.key] == g
              case Failed(f) => outcome == Failed(f) && Abs() == old(Abs())
    {
      hide MayIssue, Cleaned, Swept;
      var ok := CheckRequest(caller, r);
      if !ok { return Failed(Refused); }
      if r.key in grants && grants[r.key].owner != r.target { return Failed(Refused); }
      var grants0, byOwner0 := grants, grantsByOwner;
      var _ := CleanupOwnerGrants(r.target, now, MAX_GRANTS);
      var keys := if r.target in grantsByOwner then grantsByOwner[r.target] else [];
      if r.key !in keys {
        if |keys| >= MAX_GRANTS {
          grants, grantsByOwner := grants0, byOwner0;
          return Failed(LimitReached);
        }
        grantsByOwner := grantsByOwner[r.target := keys + [r.key]];
      }
      var g := Grant(r.target, r.key, r.scope, r.resource, if now + r.ttl <= U64_MAX then now + r.ttl else U64_MAX, r.origin, r.device, false);
      grants := grants[r.key := g];
      return Done(g);
    }

    method RevokeSessionGrant(caller: AccountId, key: string) returns (ok: bool)
      modifies `grants
      ensures var outcome := old(Revoke(Abs(), AbsControls(), caller, key));
              if ok then outcome == Done(Abs()) else outcome == Failed(Refused) && Abs() == old(Abs())
    {
      if key !in grants { return false; }
      var g := grants[key];
      if caller != g.owner && caller != contractOwner { return false; }
      grants := grants[key := g.(revoked := true)];
      return true;
    }

    method RevokeSubjectSessions(caller: AccountId, owner: AccountId) returns (ok: bool)
      modifies `grants
      ensures var outcome := old(RevokeSubject(Abs(), AbsControls(), caller, owner));
              if ok then outcome == Done(Abs()) else outcome == Failed(Refused) && Abs() == old(Abs())
    {
      if caller != owner && caller != contractOwner { return false; }
      var keys := if owner in grantsByOwner then grantsByOwner[owner] else [];
      ghost var before := grants;
      for i := 0 to |keys|
        invariant grants == RevokeAll(before, keys[..i])
      {
        assert keys[..i + 1][..i] == keys[..i];
        if keys[i] in grants {
          grants := grants[keys[i] := grants[keys[i]].(revoked := true)];
        }
      }
      assert keys[..|keys|] == keys;
      return true;
    }

    method CleanupSessionGrants(owner: AccountId, now: nat, limit: Option<nat>) returns (result: Outcome<nat>)
      modifies `grants, `grantsByOwner
      ensures var outcome := old(CleanUp(Abs(), owner, now, limit));
              match result
              case Done(removed) =>
                && outcome == Done(Abs())
                && removed == old(Swept(KeysOf(Abs(), owner), grants, now, limit.GetOr(MAX_PAGE))).removed
              case Failed(f) => outcome == Failed(f) && Abs() == old(Abs())
    {
      var n := limit.GetOr(MAX_PAGE);
      if n == 0 || n > MAX_PAGE { return Failed(Refused); }
      var removed := CleanupOwnerGrants(owner, now, n);
      return Done(removed);
    }

    method Perform(now: nat, caller: AccountId, call: Call) returns (ok: bool)
      modifies `grants, `grantsByOwner
      ensures ok == old(Result(Abs(), Step(AbsControls(), now, caller, call))).Done?
      ensures Abs() == old(After(Abs(), Step(AbsControls(), now, caller, call)))
    {
      hide Issue, Revoke, RevokeSubject, CleanUp, Swept;
      match call {
        case Issuing(request) => var result := IssueSessionGrant(now, caller, request); ok := result.Done?;
        case Revoking(key) => ok := RevokeSessionGrant(caller, key);
        case RevokingSubject(subject) => ok := RevokeSubjectSessions(caller, subject);
        case Cleaning(subject, limit) => var result := CleanupSessionGrants(subject, now, limit); ok := result.Done?;
      }
    }

    /** Any call, under the object's own controls: the object follows its recorded calls, and its maps agree. */
    method Execute(now: nat, caller: AccountId, call: Call) returns (ok: bool)
      requires Valid()
      modifies `grants, `grantsByOwner, `steps
      ensures Valid() && steps == old(steps) + [old(Step(AbsControls(), now, caller, call))]
      ensures ok == old(Result(Abs(), Step(AbsControls(), now, caller, call))).Done?
      ensures Agree(Abs())
    {
      hide After, Result, Agree;
      ghost var step := Step(AbsControls(), now, caller, call);
      ok := Perform(now, caller, call);
      assert (steps + [step])[..|steps|] == steps;
      steps := steps + [step];
      MapsAlwaysAgree(steps);
    }

    /** `can_execute`: any grant on the owner's list will do. */
    method CanExecuteNow(now: nat, owner: AccountId, scope: Scope, resource: Option<string>) returns (allowed: bool)
      ensures allowed == CanExecute(Abs(), AbsControls(), now, owner, scope, resource)
    {
      if paused || scope in pausedScopes { return false; }
      var keys := if owner in grantsByOwner then grantsByOwner[owner] else [];
      for i := 0 to |keys|
        invariant forall j | 0 <= j < i :: !Allows(grants, keys[j], now, scope, resource)
      {
        if keys[i] in grants {
          var g := grants[keys[i]];
          if !g.revoked && now <= g.expiresAt && g.scope == scope && g.resource == resource {
            assert Allows(grants, keys[i], now, scope, resource);
            return true;
          }
        }
      }
      return false;
    }
  }
}
