/**
 * The composite roles store: it turns a subject into its effective role by way
 * of the subject's role references, a cache of built roles keyed by role key, a
 * cache of role names known to be missing, and a counter of invalidations that
 * keeps a lookup begun before an invalidation from caching what it built.
 *
 * The first half states each operation as a function from the cache state
 * before to the result and the cache state after; the class in the second half
 * holds the two caches and the counter as fields and is proved to follow those
 * functions step by step. Resolving a reference into role descriptors and the
 * application privilege store are collaborators, passed in as functions.
 */
module RolesStore {
  import opened Common
  import opened Subjects
  import opened RoleMerge

  /** The name of the reserved superuser role. */
  const SuperuserRoleName := "superuser"

  /**
   * The cache key of a role reference. The two sentinel keys are compared by
   * identity in the store, so they are tags of their own here rather than
   * particular name sets.
   */
  datatype RoleKey =
    | RoleKey(names: set<string>, source: string)
    | SuperuserKey
    | EmptyKey

  /** What resolving a reference produced; the first two are sentinel results. */
  datatype RolesRetrievalResult =
    | EmptyResult
    | SuperuserResult
    | Retrieved(descriptors: seq<RoleDescriptor>, missing: set<string>, success: bool)

  /** The mutable part of the store. */
  datatype CacheState = CacheState(roleCache: map<RoleKey, Role>, negativeLookupCache: set<string>, numInvalidation: nat)

  /** The result of one request together with the cache state it leaves and whether it resolved a reference. */
  datatype Step = Step(result: Result<Role>, state: CacheState, resolved: bool)

  /** The subject acting and, when it runs as another user, that user's subject. */
  datatype AuthenticationContext = AuthenticationContext(authenticating: Subject, runAs: Option<Subject>) {
    function EffectiveSubject(): Subject {
      if runAs.Some? then runAs.value else authenticating
    }
  }

  /** Health of the security index. */
  datatype Health = Green | Yellow | Red

  /** What the store sees of the security index; a missing health means there is no index. */
  datatype IndexState = IndexState(isIndexUpToDate: bool, indexHealth: Option<Health>, indexUUID: Option<string>)

  type Resolver = RoleReference -> Result<RolesRetrievalResult>
  type PrivilegeStore = PrivilegesRequest -> Option<Failure>

  // ---------------------------------------------------------------------------
  // Specification
  // ---------------------------------------------------------------------------

  /** Sentinel keys never enter the role cache. */
  predicate NoSentinelCached(st: CacheState) {
    forall k :: k in st.roleCache ==> k.RoleKey?
  }

  /** Whether a cached key is for a role set that includes `name`. */
  predicate Mentions(k: RoleKey, name: string) {
    k.RoleKey? && name in k.names
  }

  /** Whether a reference names the superuser role among its role names; other kinds of reference never do. */
  function IncludesSuperuserRole(ref: RoleReference): (r: bool)
    ensures r <==> ref.NamedRoleReference? && exists i :: 0 <= i < |ref.roleNames| && ref.roleNames[i] == SuperuserRoleName
  {
    ref.NamedRoleReference? && SuperuserRoleName in ref.roleNames
  }

  /**
   * The prebuilt role of an internal user, None for any other user, or the
   * error raised for the system user, whose roles must never be looked up.
   */
  function TryGetRoleForInternalUser(user: User): (r: Result<Option<Role>>)
    ensures r.Err? <==> user.principal == "_system"
    ensures r.Err? ==> r.error.IllegalArgument?
    ensures r == Ok(None) <==> user.principal !in {"_system", "_xpack", "_xpack_security", "_async_search"}
    ensures r.Ok? && r.value.Some? ==> r.value.value in {XPackUserRole, XPackSecurityRole, AsyncSearchUserRole}
  {
    if user.principal == "_system" then
      Err(IllegalArgument("the user [" + user.principal + "] is the system user and we should never try to get its roles"))
    else if user.principal == "_xpack" then Ok(Some(XPackUserRole))
    else if user.principal == "_xpack_security" then Ok(Some(XPackSecurityRole))
    else if user.principal == "_async_search" then Ok(Some(AsyncSearchUserRole))
    else Ok(None)
  }

  /**
   * The caches after a successful build of `role` for `key`: only a result
   * marked successful is remembered; the role is cached only when no
   * invalidation happened since `counter` was read, and never over an entry
   * already there; the missing names are remembered either way.
   */
  function CacheAfterBuild(st: CacheState, key: RoleKey, role: Role, missing: set<string>, tryCache: bool, counter: nat): (r: CacheState)
    ensures r.numInvalidation == st.numInvalidation
    ensures forall k :: k in st.roleCache ==> k in r.roleCache && r.roleCache[k] == st.roleCache[k]
    ensures forall k :: k in r.roleCache ==> k in st.roleCache || k == key
    ensures key in r.roleCache <==> key in st.roleCache || (tryCache && counter == st.numInvalidation)
    ensures key in r.roleCache && key !in st.roleCache ==> r.roleCache[key] == role
    ensures r.negativeLookupCache == if tryCache then st.negativeLookupCache + missing else st.negativeLookupCache
  {
    if !tryCache then st
    else
      var roleCache := if counter == st.numInvalidation && key !in st.roleCache then st.roleCache[key := role] else st.roleCache;
      CacheState(roleCache, st.negativeLookupCache + missing, st.numInvalidation)
  }

  /** Builds the role from the descriptors and caches it as `CacheAfterBuild` says; a failed build changes nothing. */
  function BuildThenMaybeCache(
    st: CacheState, key: RoleKey, ds: seq<RoleDescriptor>, missing: set<string>, tryCache: bool, counter: nat,
    privilegeStore: PrivilegeStore): (Result<Role>, CacheState)
  {
    match MergeDescriptors(ds, privilegeStore)
    case Err(e) => (Err(e), st)
    case Ok(role) => (Ok(role), CacheAfterBuild(st, key, role, missing, tryCache, counter))
  }

  /**
   * The completion of a lookup of `ref` that began when the counter was
   * `counter`, given what resolving it produced and the cache state `st` at
   * completion. A failed resolution falls back to the superuser role when the
   * reference names it, and is otherwise passed on.
   */
  function CompleteLookup(
    st: CacheState, ref: RoleReference, key: RoleKey, counter: nat, outcome: Result<RolesRetrievalResult>,
    privilegeStore: PrivilegeStore): (r: (Result<Role>, CacheState))
    ensures r.1.numInvalidation == st.numInvalidation
    ensures forall k :: k in st.roleCache ==> k in r.1.roleCache && r.1.roleCache[k] == st.roleCache[k]
    ensures forall k :: k in r.1.roleCache ==> k in st.roleCache || k == key
    ensures st.negativeLookupCache <= r.1.negativeLookupCache
    ensures outcome.Err? ==> r.1 == st
    ensures outcome.Err? ==> (r.0 == Ok(SuperuserRole) <==> IncludesSuperuserRole(ref))
    ensures outcome.Err? && !IncludesSuperuserRole(ref) ==> r.0 == Err(outcome.error)
    ensures outcome == Ok(EmptyResult) ==> r == (Ok(EmptyRole), st)
    ensures outcome == Ok(SuperuserResult) ==> r == (Ok(SuperuserRole), st)
    ensures outcome.Ok? && outcome.value.Retrieved? ==>
              && r.0 == MergeDescriptors(outcome.value.descriptors, privilegeStore)
              && r.1 == (if r.0.Ok? then CacheAfterBuild(st, key, r.0.value, outcome.value.missing, outcome.value.success, counter) else st)
  {
    match outcome
    case Err(e) => (if IncludesSuperuserRole(ref) then Ok(SuperuserRole) else Err(e), st)
    case Ok(EmptyResult) => (Ok(EmptyRole), st)
    case Ok(SuperuserResult) => (Ok(SuperuserRole), st)
    case Ok(Retrieved(ds, missing, success)) => BuildThenMaybeCache(st, key, ds, missing, success, counter, privilegeStore)
  }

  /** The role of one reference: the sentinels first, then the cache, then resolution. */
  function RoleOfReference(
    st: CacheState, ref: RoleReference, roleKeyOf: RoleReference -> RoleKey, resolve: Resolver,
    privilegeStore: PrivilegeStore): (step: Step)
    ensures step.state.numInvalidation == st.numInvalidation
    ensures forall k :: k in st.roleCache ==> k in step.state.roleCache && step.state.roleCache[k] == st.roleCache[k]
    ensures forall k :: k in step.state.roleCache ==> k in st.roleCache || k == roleKeyOf(ref)
    ensures step.resolved <==> roleKeyOf(ref).RoleKey? && roleKeyOf(ref) !in st.roleCache
    ensures !step.resolved ==> step.state == st
  {
    var key := roleKeyOf(ref);
    if key == SuperuserKey then Step(Ok(SuperuserRole), st, false)
    else if key == EmptyKey then Step(Ok(EmptyRole), st, false)
    else if key in st.roleCache then Step(Ok(st.roleCache[key]), st, false)
    else
      var (r, st') := CompleteLookup(st, ref, key, st.numInvalidation, resolve(ref), privilegeStore);
      Step(r, st', true)
  }

  /**
   * The role of a subject: the prebuilt role of an internal user, or the role
   * of its first reference, limited by the role of its second when it has two.
   */
  function RoleOfSubject(
    st: CacheState, s: Subject, anonymous: Option<AnonymousUser>, roleKeyOf: RoleReference -> RoleKey,
    resolve: Resolver, privilegeStore: PrivilegeStore): (step: Step)
    ensures step.state.numInvalidation == st.numInvalidation
    ensures forall k :: k in st.roleCache ==> k in step.state.roleCache && step.state.roleCache[k] == st.roleCache[k]
    ensures !step.resolved ==> step.state == st
  {
    match TryGetRoleForInternalUser(s.user)
    case Err(e) => Step(Err(e), st, false)
    case Ok(Some(role)) => Step(Ok(role), st, false)
    case Ok(None) =>
      match GetRoleReferences(s, anonymous)
      case Err(e) => Step(Err(e), st, false)
      case Ok(refs) =>
        var first := RoleOfReference(st, refs[0], roleKeyOf, resolve, privilegeStore);
        if first.result.Err? || |refs| == 1 then first
        else
          var second := RoleOfReference(first.state, refs[1], roleKeyOf, resolve, privilegeStore);
          Step(
            if second.result.Err? then second.result else Ok(LimitedRole(first.result.value, second.result.value)),
            second.state, first.resolved || second.resolved)
  }

  /**
   * The roles of an authentication: the effective subject's role and, when it
   * runs as another user, the authenticating subject's role; otherwise the
   * same role twice.
   */
  function RolesOf(
    st: CacheState, ctx: AuthenticationContext, anonymous: Option<AnonymousUser>, roleKeyOf: RoleReference -> RoleKey,
    resolve: Resolver, privilegeStore: PrivilegeStore): (Result<(Role, Role)>, CacheState)
  {
    var effective := RoleOfSubject(st, ctx.EffectiveSubject(), anonymous, roleKeyOf, resolve, privilegeStore);
    if effective.result.Err? then (Err(effective.result.error), effective.state)
    else if ctx.runAs.None? then (Ok((effective.result.value, effective.result.value)), effective.state)
    else
      var authenticating := RoleOfSubject(effective.state, ctx.authenticating, anonymous, roleKeyOf, resolve, privilegeStore);
      if authenticating.result.Err? then (Err(authenticating.result.error), authenticating.state)
      else (Ok((effective.result.value, authenticating.result.value)), authenticating.state)
  }

  function ClearedAll(st: CacheState): CacheState {
    CacheState(map[], {}, st.numInvalidation + 1)
  }

  function InvalidatedRole(st: CacheState, name: string): CacheState {
    CacheState(
      map k | k in st.roleCache && !Mentions(k, name) :: st.roleCache[k],
      st.negativeLookupCache - {name},
      st.numInvalidation + 1)
  }

  function InvalidatedRoles(st: CacheState, names: set<string>): CacheState {
    CacheState(
      map k | k in st.roleCache && (forall n :: n in names ==> !Mentions(k, n)) :: st.roleCache[k],
      st.negativeLookupCache - names,
      st.numInvalidation + 1)
  }

  /** The security index came back: there was none or it was red, and now it exists and is not red. */
  predicate IsMoveFromRedToNonRed(previous: IndexState, current: IndexState) {
    (previous.indexHealth.None? || previous.indexHealth == Some(Red))
    && current.indexHealth.Some? && current.indexHealth != Some(Red)
  }

  /** The security index existed and no longer does. */
  predicate IsIndexDeleted(previous: IndexState, current: IndexState) {
    previous.indexHealth.Some? && current.indexHealth.None?
  }

  predicate ShouldInvalidateAll(previous: IndexState, current: IndexState) {
    || IsMoveFromRedToNonRed(previous, current)
    || IsIndexDeleted(previous, current)
    || previous.indexUUID != current.indexUUID
    || previous.isIndexUpToDate != current.isIndexUpToDate
  }

  function AfterIndexStateChange(st: CacheState, previous: IndexState, current: IndexState): CacheState {
    if ShouldInvalidateAll(previous, current) then ClearedAll(st) else st
  }

  // ---------------------------------------------------------------------------
  // The store
  // ---------------------------------------------------------------------------

  class CompositeRolesStore {
    var roleCache: map<RoleKey, Role>
    var negativeLookupCache: set<string>
    var numInvalidation: nat
    const anonymousUser: Option<AnonymousUser>
    /** The key of each reference. */
    const roleKeyOf: RoleReference -> RoleKey

    function State(): CacheState
      reads this
    {
      CacheState(roleCache, negativeLookupCache, numInvalidation)
    }

    constructor (anonymousUser: Option<AnonymousUser>, roleKeyOf: RoleReference -> RoleKey)
      ensures State() == CacheState(map[], {}, 0)
      ensures this.anonymousUser == anonymousUser && this.roleKeyOf == roleKeyOf
    {
      this.anonymousUser := anonymousUser;
      this.roleKeyOf := roleKeyOf;
      roleCache := map[];
      negativeLookupCache := {};
      numInvalidation := 0;
    }

    method GetRoles(ctx: AuthenticationContext, resolve: Resolver, privilegeStore: PrivilegeStore)
      returns (r: Result<(Role, Role)>)
      modifies this
      ensures (r, State()) == RolesOf(old(State()), ctx, anonymousUser, roleKeyOf, resolve, privilegeStore)
    {
      var role := GetRole(ctx.EffectiveSubject(), resolve, privilegeStore);
      if role.Err? {
        return Err(role.error);
      }
      if ctx.runAs.None? {
        return Ok((role.value, role.value));
      }
      var authenticatingRole := GetRole(ctx.authenticating, resolve, privilegeStore);
      if authenticatingRole.Err? {
        return Err(authenticatingRole.error);
      }
      r := Ok((role.value, authenticatingRole.value));
    }

    method GetRole(s: Subject, resolve: Resolver, privilegeStore: PrivilegeStore) returns (r: Result<Role>)
      modifies this
      ensures r == RoleOfSubject(old(State()), s, anonymousUser, roleKeyOf, resolve, privilegeStore).result
      ensures State() == RoleOfSubject(old(State()), s, anonymousUser, roleKeyOf, resolve, privilegeStore).state
    {
      var internalUserRole :- TryGetRoleForInternalUser(s.user);
      if internalUserRole.Some? {
        return Ok(internalUserRole.value);
      }
      var roleReferences :- GetRoleReferences(s, anonymousUser);
      var role := BuildRoleFromRoleReference(roleReferences[0], resolve, privilegeStore);
      if role.Err? || |roleReferences| == 1 {
        return role;
      }
      var limitedByRole := BuildRoleFromRoleReference(roleReferences[1], resolve, privilegeStore);
      if limitedByRole.Err? {
        return limitedByRole;
      }
      r := Ok(LimitedRole(role.value, limitedByRole.value));
    }

    method BuildRoleFromRoleReference(ref: RoleReference, resolve: Resolver, privilegeStore: PrivilegeStore)
      returns (r: Result<Role>)
      modifies this
      ensures r == RoleOfReference(old(State()), ref, roleKeyOf, resolve, privilegeStore).result
      ensures State() == RoleOfReference(old(State()), ref, roleKeyOf, resolve, privilegeStore).state
    {
      var roleKey := roleKeyOf(ref);
      if roleKey == SuperuserKey {
        return Ok(SuperuserRole);
      }
      if roleKey == EmptyKey {
        return Ok(EmptyRole);
      }
      if roleKey in roleCache {
        return Ok(roleCache[roleKey]);
      }
      var invalidationCounter := numInvalidation;
      match resolve(ref)
      case Err(e) =>
        r := if IncludesSuperuserRole(ref) then Ok(SuperuserRole) else Err(e);
      case Ok(EmptyResult) =>
        r := Ok(EmptyRole);
      case Ok(SuperuserResult) =>
        r := Ok(SuperuserRole);
      case Ok(Retrieved(ds, missing, success)) =>
        r := BuildThenMaybeCacheRole(roleKey, ds, missing, success, invalidationCounter, privilegeStore);
    }

    /**
     * Builds the role and, for a successful retrieval, caches it (unless an
     * invalidation happened since `invalidationCounter` was read) and records
     * the missing names one by one.
     */
    method BuildThenMaybeCacheRole(
      roleKey: RoleKey, ds: seq<RoleDescriptor>, missing: set<string>, tryCache: bool, invalidationCounter: nat,
      privilegeStore: PrivilegeStore)
      returns (r: Result<Role>)
      modifies this
      ensures (r, State()) == BuildThenMaybeCache(old(State()), roleKey, ds, missing, tryCache, invalidationCounter, privilegeStore)
    {
      r := BuildRoleFromDescriptors(ds, privilegeStore);
      if r.Ok? && tryCache {
        if invalidationCounter == numInvalidation && roleKey !in roleCache {
          roleCache := roleCache[roleKey := r.value];
        }
        ghost var cached := roleCache;
        var rest := missing;
        while rest != {}
          invariant rest <= missing
          invariant negativeLookupCache == old(negativeLookupCache) + (missing - rest)
          invariant roleCache == cached && numInvalidation == old(numInvalidation)
          decreases |rest|
        {
          var missingRole :| missingRole in rest;
          negativeLookupCache := negativeLookupCache + {missingRole};
          rest := rest - {missingRole};
        }
        assert missing - rest == missing;
      }
    }

    method InvalidateAll()
      modifies this
      ensures State() == ClearedAll(old(State()))
    {
      numInvalidation := numInvalidation + 1;
      negativeLookupCache := {};
      roleCache := map[];
    }

    method Invalidate(role: string)
      modifies this
      ensures State() == InvalidatedRole(old(State()), role)
    {
      numInvalidation := numInvalidation + 1;
      roleCache := map k | k in roleCache && !Mentions(k, role) :: roleCache[k];
      negativeLookupCache := negativeLookupCache - {role};
    }

    /** Invalidates several roles; the negative cache entries are dropped one name at a time. */
    method InvalidateRoles(roles: set<string>)
      modifies this
      ensures State() == InvalidatedRoles(old(State()), roles)
    {
      numInvalidation := numInvalidation + 1;
      roleCache := map k | k in roleCache && (forall n :: n in roles ==> !Mentions(k, n)) :: roleCache[k];
      var rest := roles;
      while rest != {}
        invariant rest <= roles
        invariant negativeLookupCache == old(negativeLookupCache) - (roles - rest)
        invariant roleCache == InvalidatedRoles(old(State()), roles).roleCache
        invariant numInvalidation == old(numInvalidation) + 1
        decreases |rest|
      {
        var name :| name in rest;
        negativeLookupCache := negativeLookupCache - {name};
        rest := rest - {name};
      }
      assert roles - rest == roles;
    }

    method OnSecurityIndexStateChange(previous: IndexState, current: IndexState)
      modifies this
      ensures State() == AfterIndexStateChange(old(State()), previous, current)
    {
      if IsMoveFromRedToNonRed(previous, current)
        || IsIndexDeleted(previous, current)
        || previous.indexUUID != current.indexUUID
        || previous.isIndexUpToDate != current.isIndexUpToDate
      {
        InvalidateAll();
      }
    }
  }

  // ---------------------------------------------------------------------------
  // Properties of the store
  // ---------------------------------------------------------------------------

  /** The sentinel keys give their fixed roles without touching the cache or resolving anything. */
  lemma SentinelKeysShortCircuit(
    st: CacheState, ref: RoleReference, roleKeyOf: RoleReference -> RoleKey, resolve: Resolver, privilegeStore: PrivilegeStore)
    requires roleKeyOf(ref) == SuperuserKey || roleKeyOf(ref) == EmptyKey
    ensures RoleOfReference(st, ref, roleKeyOf, resolve, privilegeStore)
      == Step(Ok(if roleKeyOf(ref) == SuperuserKey then SuperuserRole else EmptyRole), st, false)
  {
  }

  /** A cached role is returned as it is, and the reference is not resolved again. */
  lemma CacheHitIsReturned(
    st: CacheState, ref: RoleReference, roleKeyOf: RoleReference -> RoleKey, resolve: Resolver, privilegeStore: PrivilegeStore)
    requires roleKeyOf(ref).RoleKey? && roleKeyOf(ref) in st.roleCache
    ensures RoleOfReference(st, ref, roleKeyOf, resolve, privilegeStore) == Step(Ok(st.roleCache[roleKeyOf(ref)]), st, false)
  {
  }

  /**
   * A built role enters the cache exactly when the build succeeded, the
   * retrieval was marked successful, no invalidation happened since the lookup
   * began and no role is cached under the key yet; the missing names are
   * remembered exactly when the build and the retrieval succeeded.
   */
  lemma CachedExactlyWhenCurrent(
    st: CacheState, key: RoleKey, ds: seq<RoleDescriptor>, missing: set<string>, tryCache: bool, counter: nat,
    privilegeStore: PrivilegeStore)
    ensures var (r, st') := BuildThenMaybeCache(st, key, ds, missing, tryCache, counter, privilegeStore);
      && r == MergeDescriptors(ds, privilegeStore)
      && st'.numInvalidation == st.numInvalidation
      && (key in st'.roleCache && key !in st.roleCache <==>
            r.Ok? && tryCache && counter == st.numInvalidation && key !in st.roleCache)
      && (key in st'.roleCache && key !in st.roleCache ==> st'.roleCache[key] == r.value)
      && (forall k :: k in st'.roleCache ==> k in st.roleCache || k == key)
      && (forall k :: k in st.roleCache ==> k in st'.roleCache && st'.roleCache[k] == st.roleCache[k])
      && st'.negativeLookupCache == (if r.Ok? && tryCache then st.negativeLookupCache + missing else st.negativeLookupCache)
  {
  }

  /** A failed resolution yields the superuser role exactly when the reference names it, and leaves the caches. */
  lemma SuperuserFallback(
    st: CacheState, ref: RoleReference, roleKeyOf: RoleReference -> RoleKey, resolve: Resolver, privilegeStore: PrivilegeStore)
    requires roleKeyOf(ref).RoleKey? && roleKeyOf(ref) !in st.roleCache && resolve(ref).Err?
    ensures var step := RoleOfReference(st, ref, roleKeyOf, resolve, privilegeStore);
      && step.state == st
      && step.resolved
      && step.result == (if IncludesSuperuserRole(ref) then Ok(SuperuserRole) else Err(resolve(ref).error))
  {
  }

  /** The ways the cache can be invalidated. */
  datatype Invalidation = All | One(name: string) | Several(names: set<string>)

  function Apply(st: CacheState, inv: Invalidation): CacheState {
    match inv
    case All => ClearedAll(st)
    case One(name) => InvalidatedRole(st, name)
    case Several(names) => InvalidatedRoles(st, names)
  }

  function ApplyAll(st: CacheState, invs: seq<Invalidation>): CacheState {
    if invs == [] then st else Apply(ApplyAll(st, invs[..|invs| - 1]), invs[|invs| - 1])
  }

  /** Every invalidation advances the counter, and the cache never gains keys by it. */
  lemma {:induction false} InvalidationsAdvanceCounter(st: CacheState, invs: seq<Invalidation>)
    ensures ApplyAll(st, invs).numInvalidation == st.numInvalidation + |invs|
    ensures ApplyAll(st, invs).roleCache.Keys <= st.roleCache.Keys
  {
    if invs != [] {
      InvalidationsAdvanceCounter(st, invs[..|invs| - 1]);
    }
  }

  /**
   * A lookup that began in state `st` and completes after at least one
   * invalidation leaves the role cache as the invalidations left it: a role
   * built from possibly stale descriptors is never cached.
   */
  lemma StaleLookupIsNotCached(
    st: CacheState, ref: RoleReference, key: RoleKey, invs: seq<Invalidation>, outcome: Result<RolesRetrievalResult>,
    privilegeStore: PrivilegeStore)
    requires invs != []
    ensures var later := ApplyAll(st, invs);
      CompleteLookup(later, ref, key, st.numInvalidation, outcome, privilegeStore).1.roleCache == later.roleCache
  {
    InvalidationsAdvanceCounter(st, invs);
  }

  /** After invalidating a set of names, no cached role and no negative entry concerns any of them. */
  lemma InvalidatedRolesAreGone(st: CacheState, names: set<string>, name: string, k: RoleKey)
    requires name in names
    ensures var st' := InvalidatedRoles(st, names);
      && name !in st'.negativeLookupCache
      && (k in st'.roleCache ==> !Mentions(k, name))
      && (k in st.roleCache && (forall n :: n in names ==> !Mentions(k, n)) ==> k in st'.roleCache)
      && st'.numInvalidation > st.numInvalidation
  {
  }

  /** Invalidating one role is invalidating the set holding just that role. */
  lemma InvalidateOneIsInvalidateSingleton(st: CacheState, name: string)
    ensures InvalidatedRole(st, name) == InvalidatedRoles(st, {name})
  {
    var a, b := InvalidatedRole(st, name), InvalidatedRoles(st, {name});
    forall k | k in st.roleCache
      ensures (!Mentions(k, name)) == (forall n :: n in {name} ==> !Mentions(k, n))
    {
    }
    assert a.roleCache == b.roleCache;
  }

  /** Invalidating two sets in turn removes what invalidating their union removes. */
  lemma InvalidateRolesInTurn(st: CacheState, names1: set<string>, names2: set<string>)
    ensures var st' := InvalidatedRoles(InvalidatedRoles(st, names1), names2);
      && st'.roleCache == InvalidatedRoles(st, names1 + names2).roleCache
      && st'.negativeLookupCache == InvalidatedRoles(st, names1 + names2).negativeLookupCache
      && st'.numInvalidation == st.numInvalidation + 2
  {
    var st' := InvalidatedRoles(InvalidatedRoles(st, names1), names2);
    var both := InvalidatedRoles(st, names1 + names2);
    forall k
      ensures k in st'.roleCache <==> k in both.roleCache
    {
      if k in both.roleCache {
        assert forall n :: n in names1 ==> n in names1 + names2;
        assert forall n :: n in names2 ==> n in names1 + names2;
      }
    }
    assert st'.roleCache == both.roleCache;
  }

  /** The sentinel keys never reach the cache, whatever is looked up or invalidated. */
  lemma LookupKeepsSentinelsOut(
    st: CacheState, ref: RoleReference, roleKeyOf: RoleReference -> RoleKey, resolve: Resolver, privilegeStore: PrivilegeStore)
    requires NoSentinelCached(st)
    ensures NoSentinelCached(RoleOfReference(st, ref, roleKeyOf, resolve, privilegeStore).state)
  {
  }

  lemma SubjectLookupKeepsSentinelsOut(
    st: CacheState, s: Subject, anonymous: Option<AnonymousUser>, roleKeyOf: RoleReference -> RoleKey,
    resolve: Resolver, privilegeStore: PrivilegeStore)
    requires NoSentinelCached(st)
    ensures NoSentinelCached(RoleOfSubject(st, s, anonymous, roleKeyOf, resolve, privilegeStore).state)
  {
    if TryGetRoleForInternalUser(s.user) == Ok(None) && GetRoleReferences(s, anonymous).Ok? {
      var refs := GetRoleReferences(s, anonymous).value;
      var first := RoleOfReference(st, refs[0], roleKeyOf, resolve, privilegeStore);
      LookupKeepsSentinelsOut(st, refs[0], roleKeyOf, resolve, privilegeStore);
      if first.result.Ok? && |refs| == 2 {
        LookupKeepsSentinelsOut(first.state, refs[1], roleKeyOf, resolve, privilegeStore);
      }
    }
  }

  lemma InvalidationKeepsSentinelsOut(st: CacheState, inv: Invalidation)
    requires NoSentinelCached(st)
    ensures NoSentinelCached(Apply(st, inv))
  {
  }

  /** A health change between green and yellow alone does not invalidate; neither does turning red. */
  lemma HealthChangesThatKeepTheCache(previous: IndexState, current: IndexState)
    requires previous.indexUUID == current.indexUUID && previous.isIndexUpToDate == current.isIndexUpToDate
    requires previous.indexHealth.Some? && previous.indexHealth.value != Red && current.indexHealth.Some?
    ensures !ShouldInvalidateAll(previous, current)
  {
  }

  /** The index appearing or recovering with a health other than red, or disappearing, always invalidates. */
  lemma HealthChangesThatInvalidate(previous: IndexState, current: IndexState)
    requires
      || (previous.indexHealth.None? && current.indexHealth.Some? && current.indexHealth != Some(Red))
      || (previous.indexHealth == Some(Red) && current.indexHealth.Some? && current.indexHealth != Some(Red))
      || (previous.indexHealth.Some? && current.indexHealth.None?)
    ensures ShouldInvalidateAll(previous, current)
  {
  }

  /** Internal users get their prebuilt roles without any lookup; the system user is refused. */
  lemma InternalUsersSkipLookup(
    st: CacheState, s: Subject, anonymous: Option<AnonymousUser>, roleKeyOf: RoleReference -> RoleKey,
    resolve: Resolver, privilegeStore: PrivilegeStore)
    requires s.user.principal in {"_system", "_xpack", "_xpack_security", "_async_search"}
    ensures var step := RoleOfSubject(st, s, anonymous, roleKeyOf, resolve, privilegeStore);
      && step.state == st && !step.resolved
      && (s.user.principal == "_system" <==> step.result.Err? && step.result.error.IllegalArgument?)
      && (s.user.principal == "_xpack" ==> step.result == Ok(XPackUserRole))
      && (s.user.principal == "_xpack_security" ==> step.result == Ok(XPackSecurityRole))
      && (s.user.principal == "_async_search" ==> step.result == Ok(AsyncSearchUserRole))
  {
  }

  /**
   * With two references, the second is looked up only after the first
   * succeeded, in the state the first left, and the role is the first limited
   * by the second.
   */
  lemma TwoReferencesAreLimited(
    st: CacheState, s: Subject, anonymous: Option<AnonymousUser>, roleKeyOf: RoleReference -> RoleKey,
    resolve: Resolver, privilegeStore: PrivilegeStore)
    requires TryGetRoleForInternalUser(s.user) == Ok(None)
    requires GetRoleReferences(s, anonymous).Ok? && |GetRoleReferences(s, anonymous).value| == 2
    ensures var refs := GetRoleReferences(s, anonymous).value;
      var first := RoleOfReference(st, refs[0], roleKeyOf, resolve, privilegeStore);
      var second := RoleOfReference(first.state, refs[1], roleKeyOf, resolve, privilegeStore);
      var step := RoleOfSubject(st, s, anonymous, roleKeyOf, resolve, privilegeStore);
      && s.Type() == ApiKeyType
      && (first.result.Err? ==> step == first)
      && (first.result.Ok? && second.result.Err? ==> step.result == second.result && step.state == second.state)
      && (first.result.Ok? && second.result.Ok? ==>
            step.result == Ok(LimitedRole(first.result.value, second.result.value)) && step.state == second.state)
  {
  }

  /**
   * A subject with a single reference gets exactly that reference's role, in
   * the state its lookup leaves; a failure to derive the references is passed
   * on and changes nothing.
   */
  lemma OneReferenceIsItsRole(
    st: CacheState, s: Subject, anonymous: Option<AnonymousUser>, roleKeyOf: RoleReference -> RoleKey,
    resolve: Resolver, privilegeStore: PrivilegeStore)
    requires TryGetRoleForInternalUser(s.user) == Ok(None)
    ensures var refs := GetRoleReferences(s, anonymous);
      var step := RoleOfSubject(st, s, anonymous, roleKeyOf, resolve, privilegeStore);
      && (refs.Err? ==> step == Step(Err(refs.error), st, false))
      && (refs.Ok? && |refs.value| == 1 ==> step == RoleOfReference(st, refs.value[0], roleKeyOf, resolve, privilegeStore))
  {
  }

  /**
   * Without run-as, the authenticating role is the effective role; with it, the
   * run-as subject's role comes first and the authenticating subject's role is
   * looked up second, in the state the first lookup left.
   */
  lemma RolesOfAuthentication(
    st: CacheState, ctx: AuthenticationContext, anonymous: Option<AnonymousUser>, roleKeyOf: RoleReference -> RoleKey,
    resolve: Resolver, privilegeStore: PrivilegeStore)
    ensures var (r, st') := RolesOf(st, ctx, anonymous, roleKeyOf, resolve, privilegeStore);
      var effective := RoleOfSubject(st, ctx.EffectiveSubject(), anonymous, roleKeyOf, resolve, privilegeStore);
      var authenticating := RoleOfSubject(effective.state, ctx.authenticating, anonymous, roleKeyOf, resolve, privilegeStore);
      && (r.Ok? <==> effective.result.Ok? && (ctx.runAs.Some? ==> authenticating.result.Ok?))
      && (r.Ok? ==> r.value.0 == effective.result.value)
      && (r.Ok? && ctx.runAs.None? ==> r.value.1 == r.value.0)
      && (effective.result.Err? ==> r == Err(effective.result.error))
      && (ctx.runAs.None? || effective.result.Err? ==> st' == effective.state)
      && (ctx.runAs.Some? && effective.result.Ok? ==>
            && st' == authenticating.state
            && (authenticating.result.Err? ==> r == Err(authenticating.result.error))
            && (r.Ok? ==> r.value.1 == authenticating.result.value))
  {
  }
}
