/** Authorization with a decision cache: src/oneops/authz/{models,rbac,abac,decision_cache,service}.py. */
module Authz {
  import opened Sorting
  import opened Wrappers

  datatype Effect = ALLOW | DENY

  datatype Tier = READ | ACTION

  datatype DataClass = PUBLIC | INTERNAL | CONFIDENTIAL | PII

  datatype Principal = Principal(tenantId: string, userId: string, role: string, attributes: seq<(string, string)>)

  datatype ResourceDescriptor = ResourceDescriptor(
    resourceId: string, resourceTenantId: string, tier: Tier, dataClassification: DataClass,
    audience: seq<string>, requiredScopes: seq<string>)

  /** A denial message, by its fixed text and the values printed into it. */
  datatype Reason =
    | CrossTenant(principalTenant: string, resourceTenant: string)
    | NotInAudience(role: string, audience: seq<string>)
    | MissingScopes(scopes: seq<string>)
    | NoWriteClass(resourceId: string, role: string)
    | NoClearance(dataClass: DataClass, role: string)

  datatype Decision = Decision(effect: Effect, reasons: seq<Reason>, fromCache: bool)

  type Roles = map<string, set<string>>

  const ADMIN_PERMISSION := "admin"
  const BROAD_READ := "read:all_tickets"
  const WRITE_PREFIXES: seq<string> := ["write:", "approve:", "create:"]

  /** An unknown role has no permission at all. */
  function PermissionsFor(roles: Roles, role: string): set<string> {
    if role in roles then roles[role] else {}
  }

  predicate IsWriteClass(permission: string) {
    permission == ADMIN_PERMISSION || exists k :: 0 <= k < |WRITE_PREFIXES| && WRITE_PREFIXES[k] <= permission
  }

  function Sorted(xs: seq<string>): seq<string> {
    SortBy(StrLe, xs)
  }

  function Missing(scopes: seq<string>, granted: set<string>): seq<string> {
    Filter((s: string) => s !in granted, scopes)
  }

  // ── evaluation ───────────────────────────────────────────────────────────

  predicate AudienceFails(p: Principal, r: ResourceDescriptor) {
    r.audience != [] && p.role !in r.audience
  }

  predicate ScopesFail(r: ResourceDescriptor, granted: set<string>) {
    ADMIN_PERMISSION !in granted && exists s :: s in r.requiredScopes && s !in granted
  }

  predicate TierFails(r: ResourceDescriptor, granted: set<string>) {
    r.tier == ACTION && forall g :: g in granted ==> !IsWriteClass(g)
  }

  predicate ClassFails(r: ResourceDescriptor, granted: set<string>) {
    r.dataClassification in {CONFIDENTIAL, PII} && ADMIN_PERMISSION !in granted && BROAD_READ !in granted
  }

  /** Every violated rule in rule order, except that a tenant mismatch is reported alone. */
  function Reasons(p: Principal, r: ResourceDescriptor, granted: set<string>): seq<Reason> {
    if p.tenantId != r.resourceTenantId then [CrossTenant(p.tenantId, r.resourceTenantId)]
    else
      (if AudienceFails(p, r) then [NotInAudience(p.role, Sorted(r.audience))] else [])
      + (if ScopesFail(r, granted) then [MissingScopes(Sorted(Missing(r.requiredScopes, granted)))] else [])
      + (if TierFails(r, granted) then [NoWriteClass(r.resourceId, p.role)] else [])
      + (if ClassFails(r, granted) then [NoClearance(r.dataClassification, p.role)] else [])
  }

  method Evaluate(p: Principal, r: ResourceDescriptor, granted: set<string>) returns (reasons: seq<Reason>)
    ensures reasons == Reasons(p, r, granted)
  {
    hide Sorted, Missing, IsWriteClass;
    reasons := [];
    var hasAdmin := ADMIN_PERMISSION in granted;
    if p.tenantId != r.resourceTenantId {
      return [CrossTenant(p.tenantId, r.resourceTenantId)];
    }
    if r.audience != [] && p.role !in r.audience {
      reasons := reasons + [NotInAudience(p.role, Sorted(r.audience))];
    }
    if !hasAdmin {
      var missing := Missing(r.requiredScopes, granted);
      MissingIffFails(r.requiredScopes, granted);
      if missing != [] {
        reasons := reasons + [MissingScopes(Sorted(missing))];
      }
    }
    if r.tier == ACTION {
      if !(exists g :: g in granted && IsWriteClass(g)) {
        reasons := reasons + [NoWriteClass(r.resourceId, p.role)];
      }
    }
    if r.dataClassification == CONFIDENTIAL || r.dataClassification == PII {
      if !hasAdmin && BROAD_READ !in granted {
        reasons := reasons + [NoClearance(r.dataClassification, p.role)];
      }
    }
  }

  lemma {:induction false} MissingIffFails(scopes: seq<string>, granted: set<string>)
    ensures Missing(scopes, granted) != [] <==> exists s :: s in scopes && s !in granted
  {
    if scopes != [] {
      MissingIffFails(scopes[1..], granted);
      assert scopes == [scopes[0]] + scopes[1..];
      if scopes[0] in granted {
        assert Missing(scopes, granted) == Missing(scopes[1..], granted);
      }
    }
  }

  function Fresh(roles: Roles, p: Principal, r: ResourceDescriptor): Decision {
    var reasons := Reasons(p, r, PermissionsFor(roles, p.role));
    if reasons == [] then Decision(ALLOW, [], false) else Decision(DENY, reasons, false)
  }

  /** What it takes to be allowed, in full. */
  lemma AllowedIff(roles: Roles, p: Principal, r: ResourceDescriptor)
    ensures var granted := PermissionsFor(roles, p.role);
            Fresh(roles, p, r).effect == ALLOW <==>
            && p.tenantId == r.resourceTenantId
            && (r.audience == [] || p.role in r.audience)
            && ("admin" in granted || forall s :: s in r.requiredScopes ==> s in granted)
            && (r.tier == ACTION ==> exists g :: g in granted && IsWriteClass(g))
            && (r.dataClassification in {CONFIDENTIAL, PII} ==> "admin" in granted || "read:all_tickets" in granted)
  {
  }

  /** What counts as write-class: admin, and whatever starts with write:, approve: or create:. */
  lemma WriteClassIs(g: string)
    ensures IsWriteClass(g) <==> g == "admin" || "write:" <= g || "approve:" <= g || "create:" <= g
  {
    assert WRITE_PREFIXES[0] == "write:" && WRITE_PREFIXES[1] == "approve:" && WRITE_PREFIXES[2] == "create:";
    if IsWriteClass(g) && g != "admin" {
      var k :| 0 <= k < |WRITE_PREFIXES| && WRITE_PREFIXES[k] <= g;
      assert k == 0 || k == 1 || k == 2;
    }
  }

  /** A role that holds nothing but "read:" permissions is denied every ACTION resource. */
  lemma ReadersCannotAct(roles: Roles, p: Principal, r: ResourceDescriptor)
    requires r.tier == ACTION && forall g :: g in PermissionsFor(roles, p.role) ==> "read:" <= g
    ensures Fresh(roles, p, r).effect == DENY
  {
    forall g | g in PermissionsFor(roles, p.role) ensures !IsWriteClass(g) {
      WriteClassIs(g);
      assert g[0] == 'r';
    }
    AllowedIff(roles, p, r);
  }

  /** In its own tenant an ACTION resource fails the rule of its tier exactly for roles without admin and
      without any permission that starts with write:, approve: or create:. */
  lemma TierReasonIff(p: Principal, r: ResourceDescriptor, granted: set<string>)
    requires p.tenantId == r.resourceTenantId
    ensures NoWriteClass(r.resourceId, p.role) in Reasons(p, r, granted) <==>
            r.tier == ACTION && "admin" !in granted
            && forall g :: g in granted ==> !("write:" <= g) && !("approve:" <= g) && !("create:" <= g)
  {
    ReasonMembers(p, r, granted, NoWriteClass(r.resourceId, p.role));
    forall g ensures IsWriteClass(g) <==> g == "admin" || "write:" <= g || "approve:" <= g || "create:" <= g {
      WriteClassIs(g);
    }
    hide IsWriteClass, Reasons;
  }

  lemma ReasonMembers(p: Principal, r: ResourceDescriptor, granted: set<string>, x: Reason)
    requires p.tenantId == r.resourceTenantId
    ensures x in Reasons(p, r, granted) <==>
            || (AudienceFails(p, r) && x == NotInAudience(p.role, Sorted(r.audience)))
            || (ScopesFail(r, granted) && x == MissingScopes(Sorted(Missing(r.requiredScopes, granted))))
            || (TierFails(r, granted) && x == NoWriteClass(r.resourceId, p.role))
            || (ClassFails(r, granted) && x == NoClearance(r.dataClassification, p.role))
  {
    hide AudienceFails, ScopesFail, TierFails, ClassFails, Sorted, Missing;
  }

  /** In its own tenant a resource with an audience reports it, sorted, exactly to roles outside it, and a
      confidential or personal one reports its class exactly to roles with neither clearance. */
  lemma AudienceAndClassReasons(p: Principal, r: ResourceDescriptor, granted: set<string>, audience: seq<string>, dataClass: DataClass)
    requires p.tenantId == r.resourceTenantId
    ensures NotInAudience(p.role, audience) in Reasons(p, r, granted) <==>
            r.audience != [] && p.role !in r.audience && Ordered(StrLe, audience) && multiset(audience) == multiset(r.audience)
    ensures NoClearance(dataClass, p.role) in Reasons(p, r, granted) <==>
            dataClass == r.dataClassification && (dataClass == CONFIDENTIAL || dataClass == PII)
            && "admin" !in granted && "read:all_tickets" !in granted
  {
    ReasonMembers(p, r, granted, NotInAudience(p.role, audience));
    ReasonMembers(p, r, granted, NoClearance(dataClass, p.role));
    StrLeTotal();
    SortBySorts(StrLe, r.audience);
    if Ordered(StrLe, audience) && multiset(audience) == multiset(r.audience) {
      OrderedUnique(StrLe, audience, Sorted(r.audience));
    }
    hide Reasons, SortBy, Ordered, Missing, IsWriteClass;
  }

  lemma {:induction false} MissingIs(scopes: seq<string>, granted: set<string>, s: string)
    ensures multiset(Missing(scopes, granted))[s] == if s in granted then 0 else multiset(scopes)[s]
  {
    if scopes != [] {
      MissingIs(scopes[1..], granted, s);
      assert scopes == [scopes[0]] + scopes[1..];
      if scopes[0] in granted {
        assert Missing(scopes, granted) == Missing(scopes[1..], granted);
      } else {
        assert Missing(scopes, granted) == [scopes[0]] + Missing(scopes[1..], granted);
      }
    }
  }

  /** The reason for missing scopes lists, in order, exactly the required scopes that are not granted,
      each as often as it is required. */
  lemma MissingScopesListed(p: Principal, r: ResourceDescriptor, granted: set<string>, scopes: seq<string>, s: string)
    requires MissingScopes(scopes) in Reasons(p, r, granted)
    ensures "admin" !in granted && Ordered(StrLe, scopes)
    ensures multiset(scopes)[s] == if s in granted then 0 else multiset(r.requiredScopes)[s]
  {
    StrLeTotal();
    SortBySorts(StrLe, Missing(r.requiredScopes, granted));
    SortBySorts(StrLe, r.audience);
    MissingIs(r.requiredScopes, granted, s);
    if p.tenantId == r.resourceTenantId {
      ReasonMembers(p, r, granted, MissingScopes(scopes));
    }
    hide Missing, SortBy, Ordered;
  }

  /** Any other tenant than the resource's own is denied for that reason alone. */
  lemma CrossTenantDenied(roles: Roles, p: Principal, r: ResourceDescriptor)
    requires p.tenantId != r.resourceTenantId
    ensures Fresh(roles, p, r) == Decision(DENY, [CrossTenant(p.tenantId, r.resourceTenantId)], false)
  {
  }

  /** Deny by default: an unknown role gets nothing beyond plain readable resources without scopes. */
  lemma UnknownRoleDenied(roles: Roles, p: Principal, r: ResourceDescriptor)
    requires p.role !in roles
    requires r.requiredScopes != [] || r.tier == ACTION || r.dataClassification in {CONFIDENTIAL, PII}
    ensures Fresh(roles, p, r).effect == DENY
  {
    AllowedIff(roles, p, r);
    if r.requiredScopes != [] {
      assert r.requiredScopes[0] in r.requiredScopes;
    }
  }

  // ── decision key ─────────────────────────────────────────────────────────

  /** The digested payload; SHA-256 over canonical JSON is taken to be collision-free, so the payload
      itself is the key. */
  datatype Key = Key(
    pTenant: string, pUser: string, pRole: string, pAttrs: seq<(string, string)>,
    rId: string, rTenant: string, rTier: Tier, rData: DataClass, rAudience: seq<string>, rScopes: seq<string>)

  function DecisionKey(p: Principal, r: ResourceDescriptor): Key {
    Key(p.tenantId, p.userId, p.role, SortBy(PairLe, p.attributes), r.resourceId, r.resourceTenantId,
        r.tier, r.dataClassification, Sorted(r.audience), Sorted(r.requiredScopes))
  }

  lemma MissingDependsOnSort(a: seq<string>, b: seq<string>, granted: set<string>)
    requires Sorted(a) == Sorted(b)
    ensures Sorted(Missing(a, granted)) == Sorted(Missing(b, granted))
    ensures (exists s :: s in a && s !in granted) <==> (exists s :: s in b && s !in granted)
  {
    StrLeTotal();
    SortFilterCommute(StrLe, (s: string) => s !in granted, a);
    SortFilterCommute(StrLe, (s: string) => s !in granted, b);
    SameMembers(StrLe, a, b);
  }

  /** Equal keys force equal evaluations, effect and full reason list: permuted audiences and scopes
      sort to the same list, and sorting commutes with filtering the missing scopes. */
  lemma EqualKeysEqualDecisions(roles: Roles, p: Principal, r: ResourceDescriptor, p': Principal, r': ResourceDescriptor)
    requires DecisionKey(p, r) == DecisionKey(p', r')
    ensures Fresh(roles, p, r) == Fresh(roles, p', r')
  {
    var granted := PermissionsFor(roles, p.role);
    StrLeTotal();
    SameMembers(StrLe, r.audience, r'.audience);
    MissingDependsOnSort(r.requiredScopes, r'.requiredScopes, granted);
    assert Reasons(p, r, granted) == Reasons(p', r', granted);
  }

  /** Permuting the audience and the required scopes of a resource, or the attributes of a principal, does
      not change the key. */
  lemma PermutedSameKey(p: Principal, r: ResourceDescriptor, attributes: seq<(string, string)>, audience: seq<string>, scopes: seq<string>)
    requires multiset(attributes) == multiset(p.attributes)
    requires multiset(audience) == multiset(r.audience) && multiset(scopes) == multiset(r.requiredScopes)
    ensures DecisionKey(p.(attributes := attributes), r.(audience := audience, requiredScopes := scopes)) == DecisionKey(p, r)
  {
    StrLeTotal();
    PairLeTotal();
    SortIsCanonical(PairLe, attributes, p.attributes);
    SortIsCanonical(StrLe, audience, r.audience);
    SortIsCanonical(StrLe, scopes, r.requiredScopes);
  }

  // ── cache and service ────────────────────────────────────────────────────

  datatype Stored = Stored(decision: Decision, expiresAt: real)

  type Store = map<Key, Stored>

  function Lookup(store: Store, key: Key, now: real): Option<Decision> {
    if key in store && now < store[key].expiresAt then Some(store[key].decision.(fromCache := true)) else None
  }

  /** A lookup deletes the entry it finds expired. */
  function AfterLookup(store: Store, key: Key, now: real): Store {
    if key in store && now >= store[key].expiresAt then store - {key} else store
  }

  class InMemoryDecisionCache {
    var store: Store

    constructor ()
      ensures store == map[]
    {
      store := map[];
    }

    method Get(key: Key, now: real) returns (hit: Option<Decision>)
      modifies this
      ensures hit == Lookup(old(store), key, now) && store == AfterLookup(old(store), key, now)
      ensures hit.Some? <==> key in old(store) && now < old(store)[key].expiresAt
      ensures store == if key in old(store) && now >= old(store)[key].expiresAt then old(store) - {key} else old(store)
    {
      if key !in store {
        return None;
      }
      var entry := store[key];
      if now >= entry.expiresAt {
        store := store - {key};
        return None;
      }
      return Some(entry.decision.(fromCache := true));
    }

    /** False stands for the ValueError on a TTL that is not positive. */
    method Put(key: Key, decision: Decision, ttl: real, now: real) returns (ok: bool)
      modifies this
      ensures ok == (ttl > 0.0)
      ensures store == if ok then old(store)[key := Stored(decision, now + ttl)] else old(store)
    {
      if ttl <= 0.0 {
        return false;
      }
      store := store[key := Stored(decision, now + ttl)];
      return true;
    }

    method Invalidate(key: Key)
      modifies this
      ensures store == old(store) - {key}
    {
      store := store - {key};
    }
  }

  /** The decision returned, or None for the ValueError of a service configured without a TTL. */
  function Checked(roles: Roles, ttl: real, store: Store, p: Principal, r: ResourceDescriptor, now: real): Option<Decision> {
    var hit := Lookup(store, DecisionKey(p, r), now);
    if hit.Some? then hit else if ttl > 0.0 then Some(Fresh(roles, p, r)) else None
  }

  function AfterCheck(roles: Roles, ttl: real, store: Store, p: Principal, r: ResourceDescriptor, now: real, later: real): Store {
    var key := DecisionKey(p, r);
    if Lookup(store, key, now).Some? then store
    else if ttl > 0.0 then AfterLookup(store, key, now)[key := Stored(Fresh(roles, p, r), later + ttl)]
    else AfterLookup(store, key, now)
  }

  class AuthzService {
    const roles: Roles
    const cache: InMemoryDecisionCache
    const ttl: real

    constructor (roles: Roles, cache: InMemoryDecisionCache, ttl: real)
      ensures this.roles == roles && this.cache == cache && this.ttl == ttl
    {
      this.roles, this.cache, this.ttl := roles, cache, ttl;
    }

    /** `check`: `now` is the clock at the lookup and `later` at the write. */
    method Check(p: Principal, r: ResourceDescriptor, now: real, later: real) returns (decision: Option<Decision>)
      modifies cache
      ensures decision == Checked(roles, ttl, old(cache.store), p, r, now)
      ensures cache.store == AfterCheck(roles, ttl, old(cache.store), p, r, now, later)
    {
      var key := DecisionKey(p, r);
      var cached := cache.Get(key, now);
      if cached.Some? {
        return cached;
      }
      var granted := PermissionsFor(roles, p.role);
      var reasons := Evaluate(p, r, granted);
      var made := if reasons == [] then Decision(ALLOW, [], false) else Decision(DENY, reasons, false);
      var ok := cache.Put(key, made, ttl, later);
      return if ok then Some(made) else None;
    }
  }

  // ── runs ─────────────────────────────────────────────────────────────────

  /** Checks of this service, fresh decisions put by other services over the same role map, and
      invalidations; expiry happens inside the lookups. Clock readings are arbitrary. */
  datatype Event =
    | Check(p: Principal, r: ResourceDescriptor, now: real, later: real)
    | PutByOther(p: Principal, r: ResourceDescriptor, expiresAt: real)
    | Invalidate(key: Key)

  function Apply(roles: Roles, ttl: real, store: Store, e: Event): Store {
    match e
    case Check(p, r, now, later) => AfterCheck(roles, ttl, store, p, r, now, later)
    case PutByOther(p, r, expiresAt) => store[DecisionKey(p, r) := Stored(Fresh(roles, p, r), expiresAt)]
    case Invalidate(key) => store - {key}
  }

  function Run(roles: Roles, ttl: real, evs: seq<Event>): Store {
    if evs == [] then map[] else Apply(roles, ttl, Run(roles, ttl, evs[..|evs| - 1]), evs[|evs| - 1])
  }

  /** Whatever is stored under a key is the fresh decision of every request with that key. */
  ghost predicate StoreIsFresh(roles: Roles, store: Store) {
    forall p, r :: DecisionKey(p, r) in store ==> store[DecisionKey(p, r)].decision == Fresh(roles, p, r)
  }

  lemma StepKeepsFresh(roles: Roles, ttl: real, store: Store, e: Event)
    requires StoreIsFresh(roles, store)
    ensures StoreIsFresh(roles, Apply(roles, ttl, store, e))
  {
    if !e.Invalidate? {
      forall p, r | DecisionKey(p, r) == DecisionKey(e.p, e.r) ensures Fresh(roles, p, r) == Fresh(roles, e.p, e.r) {
        EqualKeysEqualDecisions(roles, p, r, e.p, e.r);
      }
    }
  }

  lemma {:induction false} RunKeepsFresh(roles: Roles, ttl: real, evs: seq<Event>)
    ensures StoreIsFresh(roles, Run(roles, ttl, evs))
  {
    if evs != [] {
      RunKeepsFresh(roles, ttl, evs[..|evs| - 1]);
      StepKeepsFresh(roles, ttl, Run(roles, ttl, evs[..|evs| - 1]), evs[|evs| - 1]);
    }
  }

  /** The cache is invisible: after any run, at any clock reading, a check that returns gives the fresh
      decision, effect and full reason list, up to the from-cache flag; the flag is set exactly on hits. */
  lemma CacheIsTransparent(roles: Roles, ttl: real, evs: seq<Event>, p: Principal, r: ResourceDescriptor, now: real)
    ensures var checked, store := Checked(roles, ttl, Run(roles, ttl, evs), p, r, now), Run(roles, ttl, evs);
            && (ttl > 0.0 ==> checked.Some?)
            && (checked.Some? ==>
                  && checked.value.effect == Fresh(roles, p, r).effect
                  && checked.value.reasons == Fresh(roles, p, r).reasons
                  && (checked.value.fromCache <==> DecisionKey(p, r) in store && now < store[DecisionKey(p, r)].expiresAt))
  {
    RunKeepsFresh(roles, ttl, evs);
  }

  /** The cache works: after a check that was evaluated, every check with the same key that comes before
      the TTL has passed since the write is answered from the cache, and one that comes later is not. */
  lemma CheckIsCached(roles: Roles, ttl: real, store: Store, p: Principal, r: ResourceDescriptor, now: real, later: real,
                      p': Principal, r': ResourceDescriptor, next: real)
    requires ttl > 0.0 && !(DecisionKey(p, r) in store && now < store[DecisionKey(p, r)].expiresAt)
    requires DecisionKey(p', r') == DecisionKey(p, r)
    ensures var after := Checked(roles, ttl, AfterCheck(roles, ttl, store, p, r, now, later), p', r', next);
            && after.Some? && after.value.effect == Fresh(roles, p, r).effect && after.value.reasons == Fresh(roles, p, r).reasons
            && (after.value.fromCache <==> next < later + ttl)
  {
    EqualKeysEqualDecisions(roles, p, r, p', r');
    hide DecisionKey, Reasons;
  }
}
