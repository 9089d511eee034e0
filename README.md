# Role resolution in the Elasticsearch security plugin

This project models the role-resolution core of the Elasticsearch security
plugin.

- **Subjects** (`subject.dfy`). An authenticated subject is classified as a
  user, an API key or a service account by the type of its realm. It then
  yields the one or two role references its role is built from:
  - a user gets one named-roles reference, with the anonymous user's roles
    appended when anonymous access is enabled;
  - an API key gets an optional assigned reference and a limited-by
    reference, in the byte encoding (7.9.0 and later) or the legacy map
    encoding;
  - a service account gets one reference to its principal.
  One legacy fleet-server key has its empty limited-by payload replaced by a
  fixed 7.14 payload.
- **Merging role descriptors** (`role_merge.dfy`). Turning role descriptors
  into one role:
  - cluster and run-as names are unioned;
  - conditional cluster privileges are concatenated;
  - application privilege names are unioned per (application, resource set);
  - index privilege entries are grouped by their exact set of index names,
    separately for entries that may and may not touch restricted indices,
    and each group is merged in place by a `MergeableIndicesPrivilege`
    object.

  The functions state the result. The class and methods build it with the
  same loops and in-place merges as the Java code, and are proved equal to the
  functions.
- **The composite roles store** (`roles_store.dfy`). The `CompositeRolesStore`
  class holds the role cache, the negative-lookup cache of names known to be
  missing, and the invalidation counter. It covers:
  - the superuser and empty sentinel keys, cache hits, and resolution;
  - the superuser fallback when resolution fails;
  - caching guarded by the counter;
  - the three invalidation operations and the security-index observer;
  - internal users;
  - limiting a role by a second reference.

  Each method is proved to follow a function from the cache state before to
  the result and the cache state after. The properties are lemmas about those
  functions.

`common.dfy` holds the `Option`, `Result` and failure types and the byte type.

Callbacks are modelled as ordinary sequential continuations. Collaborators
are parameters:
- resolving a reference into role descriptors (`Resolver`);
- the application privilege store (`PrivilegeStore`, answering None on
  success or the failure it reported);
- the key of a reference (`roleKeyOf`).

A Java exception becomes an `Err` value. The model follows the code in these
places:

- **Explicit denial.** An index privilege entry is treated as an explicit
  denial when its descriptor has exactly one index entry and that entry's
  first privilege is `none` in any case (`CompositeRolesStore.java:550-551`).
  The test is on the number of entries in the descriptor, not on the number of
  privileges in the entry.
- **Missing limited-by payload.** In the byte encoding the limited-by payload
  is dereferenced (`Subject.java:195`) before the check that rejects a key
  with neither payload (`Subject.java:130-131`). A key without a limited-by
  payload therefore fails with a null dereference (`Err(NullDereference)`),
  and the "no role descriptors found" security error of that path can never
  be raised.
- **Wrong metadata types.** A metadata value of the wrong type is a failed
  cast (`Err(WrongMetadataType)`).
- **Negative-lookup cache.** The missing names are recorded whenever the build
  and the retrieval succeeded, whether or not the invalidation counter still
  matches (`CompositeRolesStore.java:341-357`). Only the role cache insert is
  guarded by the counter. So a lookup that began before `invalidate(name)`
  and completes after it can put `name` back into the negative-lookup cache.
- **Privilege-store failure.** A failure of the application privilege store
  is passed to the caller as it is. The superuser fallback applies only to
  failures of resolution (`CompositeRolesStore.java:273-291, 448-454`).

## Model

| member | source | states |
|---|---|---|
| Subjects.TypeOf | x-pack/plugin/core/src/main/java/org/elasticsearch/xpack/core/security/authc/Subject.java:56-68 | the subject is an API key exactly when its realm type is the API-key realm type, and a service account exactly when it is the service-account realm type; otherwise, including with no realm, it is a user |
| Subjects.GetRoleReferences | x-pack/plugin/core/src/main/java/org/elasticsearch/xpack/core/security/authc/Subject.java:92-104 | one or two references, two only for an API key; a user gets one named reference; a service account gets exactly one reference to its principal; non-users get no named reference |
| Subjects.BuildRoleReferencesForUser | x-pack/plugin/core/src/main/java/org/elasticsearch/xpack/core/security/authc/Subject.java:106-121 | when it succeeds, a user gets exactly one named-roles reference |
| Subjects.UserReferences | x-pack/plugin/core/src/main/java/org/elasticsearch/xpack/core/security/authc/Subject.java:106-121 | fails, with an illegal-state error, exactly when an enabled anonymous user without roles would be added; otherwise the reference holds the user's roles, followed by the anonymous roles exactly when anonymous access is enabled and the user is not the anonymous user |
| Subjects.AnonymousRolesAreAdditive | x-pack/plugin/core/src/main/java/org/elasticsearch/xpack/core/security/authc/Subject.java:110-120 | with anonymous access, a name is in the reference exactly when it is a role of the user or of the anonymous user |
| Subjects.AsText | x-pack/plugin/core/src/main/java/org/elasticsearch/xpack/core/security/authc/Subject.java:127 | reading the key id succeeds exactly when it is absent or text, and then gives None or exactly that text; any other type is a wrong-type failure |
| Subjects.AsBytes | x-pack/plugin/core/src/main/java/org/elasticsearch/xpack/core/security/authc/Subject.java:128 | reading a byte payload succeeds exactly when it is absent or bytes, and then gives None or exactly those bytes; any other type is a wrong-type failure |
| Subjects.AsMap | x-pack/plugin/core/src/main/java/org/elasticsearch/xpack/core/security/authc/Subject.java:174-177 | reading a legacy map succeeds exactly when it is absent or a map, and then gives None or exactly that map; any other type is a wrong-type failure |
| Subjects.BuildRoleReferencesForApiKey | x-pack/plugin/core/src/main/java/org/elasticsearch/xpack/core/security/authc/Subject.java:123-145 | one or two references, the last a limited-by reference and, when there are two, the first an assigned reference |
| Subjects.ApiKeyByteReferences | x-pack/plugin/core/src/main/java/org/elasticsearch/xpack/core/security/authc/Subject.java:127-149 | a missing limited-by payload fails with a null dereference; otherwise the limited-by reference carries the (possibly substituted) payload, and it stands alone exactly when the assigned payload is absent or the two bytes `{}` |
| Subjects.IsEmptyRoleDescriptorsBytes | x-pack/plugin/core/src/main/java/org/elasticsearch/xpack/core/security/authc/Subject.java:147-149 | a payload is empty exactly when it is absent or the two bytes `{}`; a payload of any other length is not empty |
| Subjects.GetLimitedByRoleDescriptorsBytes | x-pack/plugin/core/src/main/java/org/elasticsearch/xpack/core/security/authc/Subject.java:192-202 | an absent limited-by payload is a null dereference, a payload of another type a wrong-type failure; otherwise the result is the stored payload or the fixed 7.14 fleet-server payload |
| Subjects.BuildRolesReferenceForApiKeyBwc | x-pack/plugin/core/src/main/java/org/elasticsearch/xpack/core/security/authc/Subject.java:151-172 | one or two references, all of the legacy map kind, limited-by last and assigned first when there are two |
| Subjects.ApiKeyLegacyReferences | x-pack/plugin/core/src/main/java/org/elasticsearch/xpack/core/security/authc/Subject.java:151-172 | fails with a security error exactly when both maps are absent; the limited-by reference stands alone exactly when the assigned map is absent or empty |
| Subjects.LimitedByPayloadSubstitution | x-pack/plugin/core/src/main/java/org/elasticsearch/xpack/core/security/authc/Subject.java:192-202 | a present limited-by payload is returned changed exactly when it is `{}`, the creator realm is the service-account realm and the principal is `elastic/fleet-server`, and the changed payload is the fixed 7.14 fleet-server payload |
| RoleMerge.MergeableIndicesPrivilege.constructor | x-pack/plugin/security/src/main/java/org/elasticsearch/xpack/security/authz/store/CompositeRolesStore.java:512-525 | a new group holds the entry's index and privilege names as sets, its one field rule, and its query as a one-element set or no query |
| RoleMerge.MergeableIndicesPrivilege.Merge | x-pack/plugin/security/src/main/java/org/elasticsearch/xpack/security/authz/store/CompositeRolesStore.java:527-540 | merging unions the privileges and field rules, and the query becomes unrestricted if either side is, else the union of both |
| RoleMerge.MergeableIndicesPrivilege.CollatePrivilegesByIndices | x-pack/plugin/security/src/main/java/org/elasticsearch/xpack/security/authz/store/CompositeRolesStore.java:542-579 | the groups become the specified grouping of the collated entries on top of the groups passed in; existing groups are merged in place, new ones are fresh, and every group stays under its own key |
| RoleMerge.MergeableIndicesPrivilege.CollateOne | x-pack/plugin/security/src/main/java/org/elasticsearch/xpack/security/authz/store/CompositeRolesStore.java:555-577 | one entry is merged into the group for its index names, or starts a new group |
| RoleMerge.CollateDescriptor | x-pack/plugin/security/src/main/java/org/elasticsearch/xpack/security/authz/store/CompositeRolesStore.java:402-403 | collating a descriptor into the restricted and the unrestricted maps extends both groupings by that descriptor, with no group object shared between the maps |
| RoleMerge.AddApplicationPrivileges | x-pack/plugin/security/src/main/java/org/elasticsearch/xpack/security/authz/store/CompositeRolesStore.java:404-414 | the application map becomes the specified per-(application, resources) union |
| RoleMerge.BuildRoleFromDescriptors | x-pack/plugin/security/src/main/java/org/elasticsearch/xpack/security/authz/store/CompositeRolesStore.java:369-456 | the role built in place equals the specified merge of the descriptors, including the privilege store's failure |
| RoleMerge.CheckApplicationPrivileges | x-pack/plugin/security/src/main/java/org/elasticsearch/xpack/security/authz/store/CompositeRolesStore.java:440-455 | with no application privileges the role is returned without asking the store; otherwise the store is asked about exactly the applications and privilege names of the map, and its failure replaces the role |
| RoleMerge.MergeOutcome | x-pack/plugin/security/src/main/java/org/elasticsearch/xpack/security/authz/store/CompositeRolesStore.java:369-456 | no descriptors give the empty role; otherwise a success is a built role whose names are the descriptors' names; a failure happens only when application privileges are requested, and it is the privilege store's failure |
| RoleMerge.NamesInOrder | x-pack/plugin/security/src/main/java/org/elasticsearch/xpack/security/authz/store/CompositeRolesStore.java:390-392 | the role's names are the descriptors' names in order |
| RoleMerge.ClusterUnionMembers | x-pack/plugin/security/src/main/java/org/elasticsearch/xpack/security/authz/store/CompositeRolesStore.java:393-395 | a cluster privilege is in the role exactly when some descriptor grants it |
| RoleMerge.RunAsUnionMembers | x-pack/plugin/security/src/main/java/org/elasticsearch/xpack/security/authz/store/CompositeRolesStore.java:399-401 | a run-as name is in the role exactly when some descriptor names it |
| RoleMerge.RunAsNone | x-pack/plugin/security/src/main/java/org/elasticsearch/xpack/security/authz/store/CompositeRolesStore.java:417 | the run-as privilege is NONE exactly when no descriptor names a run-as user |
| RoleMerge.CollatedEntriesMembers | x-pack/plugin/security/src/main/java/org/elasticsearch/xpack/security/authz/store/CompositeRolesStore.java:547-554 | an entry is collated exactly when it is not an explicit denial and its restricted-indices flag matches |
| RoleMerge.KeptEntriesMembers | x-pack/plugin/security/src/main/java/org/elasticsearch/xpack/security/authz/store/CompositeRolesStore.java:391-403 | the entries grouped over all descriptors are exactly the collated entries of some descriptor |
| RoleMerge.ExplicitDenialIsSkipped | x-pack/plugin/security/src/main/java/org/elasticsearch/xpack/security/authz/store/CompositeRolesStore.java:548-554 | an entry that is its descriptor's only entry and grants `none` reaches no group |
| RoleMerge.GroupKeys | x-pack/plugin/security/src/main/java/org/elasticsearch/xpack/security/authz/store/CompositeRolesStore.java:555-577 | there is a group for an index-name set exactly when some entry has that set, and the group is for those indices |
| RoleMerge.GroupPrivileges | x-pack/plugin/security/src/main/java/org/elasticsearch/xpack/security/authz/store/CompositeRolesStore.java:527-533 | a group grants a privilege exactly when some entry with its index names does |
| RoleMerge.GroupFieldGroups | x-pack/plugin/security/src/main/java/org/elasticsearch/xpack/security/authz/store/CompositeRolesStore.java:529-532 | a group carries a field rule exactly when some entry with its index names has it |
| RoleMerge.GroupQuery | x-pack/plugin/security/src/main/java/org/elasticsearch/xpack/security/authz/store/CompositeRolesStore.java:535-539 | a group is unrestricted exactly when some entry with its index names has no query; otherwise it holds exactly those entries' queries |
| RoleMerge.GroupsIgnoreOrder | x-pack/plugin/security/src/main/java/org/elasticsearch/xpack/security/authz/store/CompositeRolesStore.java:542-579 | the groups depend only on which entries there are, not on their order or repetition |
| RoleMerge.AppGroupsFromMembers | x-pack/plugin/security/src/main/java/org/elasticsearch/xpack/security/authz/store/CompositeRolesStore.java:404-414 | a key is present exactly when it was present or some entry has it, and it holds the old names plus those entries' names |
| RoleMerge.AppGroupsMembers | x-pack/plugin/security/src/main/java/org/elasticsearch/xpack/security/authz/store/CompositeRolesStore.java:404-414 | an (application, resources) key is present exactly when some descriptor has such an entry, and holds exactly those entries' privilege names |
| RoleMerge.MergedIndexGroups | x-pack/plugin/security/src/main/java/org/elasticsearch/xpack/security/authz/store/CompositeRolesStore.java:402-438 | the built role's restricted and unrestricted groups exist for exactly the index-name sets of collated entries, and grant exactly those entries' privileges |
| RoleMerge.MergeFailure | x-pack/plugin/security/src/main/java/org/elasticsearch/xpack/security/authz/store/CompositeRolesStore.java:440-455 | building fails exactly when some descriptor grants application privileges and the privilege store reports a failure, which is passed on |
| RolesStore.CacheAfterBuild | x-pack/plugin/security/src/main/java/org/elasticsearch/xpack/security/authz/store/CompositeRolesStore.java:341-357 | the counter is unchanged, cached roles are never overwritten, only the looked-up key can be added, and it is added exactly when the retrieval succeeded and the counter still matches |
| RolesStore.CompleteLookup | x-pack/plugin/security/src/main/java/org/elasticsearch/xpack/security/authz/store/CompositeRolesStore.java:258-292 | completing a lookup never overwrites a cached role or adds another key; a failed resolution changes nothing and gives the superuser role exactly when the reference names superuser, else the same error; the empty and superuser results give the empty and superuser roles and change nothing; retrieved descriptors give their merge, and on success the caches `CacheAfterBuild` specifies for that role, missing names, success flag and starting counter, on failure no change |
| RolesStore.IncludesSuperuserRole | x-pack/plugin/security/src/main/java/org/elasticsearch/xpack/security/authz/store/CompositeRolesStore.java:298-304 | a reference includes superuser exactly when it is a named reference and one of its names is `superuser` |
| RolesStore.TryGetRoleForInternalUser | x-pack/plugin/security/src/main/java/org/elasticsearch/xpack/security/authz/store/CompositeRolesStore.java:218-242 | the system user, and only it, is refused with an illegal-argument error; the other three internal users get a prebuilt role; every other user gets none |
| RolesStore.RoleOfReference | x-pack/plugin/security/src/main/java/org/elasticsearch/xpack/security/authz/store/CompositeRolesStore.java:244-296 | a reference is resolved exactly when its key is not a sentinel and not cached; without resolution the state is unchanged; cached roles survive |
| RolesStore.RoleOfSubject | x-pack/plugin/security/src/main/java/org/elasticsearch/xpack/security/authz/store/CompositeRolesStore.java:187-215 | looking up a subject's role keeps the counter and every cached role, and changes nothing when no reference is resolved |
| RolesStore.CompositeRolesStore.constructor | x-pack/plugin/security/src/main/java/org/elasticsearch/xpack/security/authz/store/CompositeRolesStore.java:143-167 | a new store has empty caches and a zero counter |
| RolesStore.CompositeRolesStore.GetRoles | x-pack/plugin/security/src/main/java/org/elasticsearch/xpack/security/authz/store/CompositeRolesStore.java:170-185 | the result and the new caches are those `RolesOf` specifies |
| RolesStore.CompositeRolesStore.GetRole | x-pack/plugin/security/src/main/java/org/elasticsearch/xpack/security/authz/store/CompositeRolesStore.java:187-215 | the result and the new caches are those `RoleOfSubject` specifies |
| RolesStore.CompositeRolesStore.BuildRoleFromRoleReference | x-pack/plugin/security/src/main/java/org/elasticsearch/xpack/security/authz/store/CompositeRolesStore.java:244-296 | the result and the new caches are those `RoleOfReference` specifies |
| RolesStore.CompositeRolesStore.BuildThenMaybeCacheRole | x-pack/plugin/security/src/main/java/org/elasticsearch/xpack/security/authz/store/CompositeRolesStore.java:321-362 | the result and the new caches are those `BuildThenMaybeCache` specifies, the missing names added one at a time |
| RolesStore.CompositeRolesStore.InvalidateAll | x-pack/plugin/security/src/main/java/org/elasticsearch/xpack/security/authz/store/CompositeRolesStore.java:458-465 | both caches are emptied and the counter advances |
| RolesStore.CompositeRolesStore.Invalidate | x-pack/plugin/security/src/main/java/org/elasticsearch/xpack/security/authz/store/CompositeRolesStore.java:467-472 | the keys naming the role and its negative entry are removed and the counter advances |
| RolesStore.CompositeRolesStore.InvalidateRoles | x-pack/plugin/security/src/main/java/org/elasticsearch/xpack/security/authz/store/CompositeRolesStore.java:474-478 | the keys naming any of the roles and their negative entries are removed, one name at a time, and the counter advances |
| RolesStore.CompositeRolesStore.OnSecurityIndexStateChange | x-pack/plugin/security/src/main/java/org/elasticsearch/xpack/security/authz/store/CompositeRolesStore.java:489-496 | the caches are invalidated exactly as `AfterIndexStateChange` specifies |
| RolesStore.SentinelKeysShortCircuit | x-pack/plugin/security/src/main/java/org/elasticsearch/xpack/security/authz/store/CompositeRolesStore.java:245-253 | the superuser and empty sentinel keys give the superuser and empty roles, with no cache change and no resolution |
| RolesStore.CacheHitIsReturned | x-pack/plugin/security/src/main/java/org/elasticsearch/xpack/security/authz/store/CompositeRolesStore.java:255-295 | a cached role is returned unchanged without resolution |
| RolesStore.CachedExactlyWhenCurrent | x-pack/plugin/security/src/main/java/org/elasticsearch/xpack/security/authz/store/CompositeRolesStore.java:341-357 | a built role is cached exactly when the build and retrieval succeeded, the counter matches and the key is absent; nothing is overwritten; missing names are recorded exactly when the build and retrieval succeeded |
| RolesStore.SuperuserFallback | x-pack/plugin/security/src/main/java/org/elasticsearch/xpack/security/authz/store/CompositeRolesStore.java:273-304 | a failed resolution gives the superuser role exactly when the reference is a named reference including superuser, else the same error, and leaves the caches |
| RolesStore.InvalidationsAdvanceCounter | x-pack/plugin/security/src/main/java/org/elasticsearch/xpack/security/authz/store/CompositeRolesStore.java:458-478 | every invalidation raises the counter by one and never adds cache keys |
| RolesStore.StaleLookupIsNotCached | x-pack/plugin/security/src/main/java/org/elasticsearch/xpack/security/authz/store/CompositeRolesStore.java:343-352 | a lookup that completes after any invalidation since it began leaves the role cache as the invalidations left it |
| RolesStore.InvalidatedRolesAreGone | x-pack/plugin/security/src/main/java/org/elasticsearch/xpack/security/authz/store/CompositeRolesStore.java:474-478 | after invalidating names, no cached key and no negative entry concerns them, keys naming none of them stay, and the counter grew |
| RolesStore.InvalidateOneIsInvalidateSingleton | x-pack/plugin/security/src/main/java/org/elasticsearch/xpack/security/authz/store/CompositeRolesStore.java:467-478 | invalidating one role equals invalidating the set holding just that role |
| RolesStore.InvalidateRolesInTurn | x-pack/plugin/security/src/main/java/org/elasticsearch/xpack/security/authz/store/CompositeRolesStore.java:474-478 | invalidating two sets in turn leaves the caches that invalidating their union leaves |
| RolesStore.LookupKeepsSentinelsOut | x-pack/plugin/security/src/main/java/org/elasticsearch/xpack/security/authz/store/CompositeRolesStore.java:244-253 | a reference lookup never caches under a sentinel key |
| RolesStore.SubjectLookupKeepsSentinelsOut | x-pack/plugin/security/src/main/java/org/elasticsearch/xpack/security/authz/store/CompositeRolesStore.java:187-215 | a subject lookup never caches under a sentinel key |
| RolesStore.InvalidationKeepsSentinelsOut | x-pack/plugin/security/src/main/java/org/elasticsearch/xpack/security/authz/store/CompositeRolesStore.java:458-478 | no invalidation caches under a sentinel key |
| RolesStore.HealthChangesThatKeepTheCache | x-pack/plugin/security/src/test/java/org/elasticsearch/xpack/security/authz/store/CompositeRolesStoreTests.java:1092-1110 | with the same UUID and up-to-date flag, moving from green or yellow to any health (green, yellow or red) does not invalidate |
| RolesStore.HealthChangesThatInvalidate | x-pack/plugin/security/src/test/java/org/elasticsearch/xpack/security/authz/store/CompositeRolesStoreTests.java:1080-1102 | the index appearing or recovering from red with a non-red health, or disappearing, invalidates |
| RolesStore.InternalUsersSkipLookup | x-pack/plugin/security/src/main/java/org/elasticsearch/xpack/security/authz/store/CompositeRolesStore.java:218-242 | the system user is refused with an illegal-argument error; the other internal users get their prebuilt roles; neither resolves anything or changes the caches |
| RolesStore.OneReferenceIsItsRole | x-pack/plugin/security/src/main/java/org/elasticsearch/xpack/security/authz/store/CompositeRolesStore.java:196-203 | a subject with one reference gets exactly that reference's role and state; a failure to derive the references is passed on and changes nothing |
| RolesStore.TwoReferencesAreLimited | x-pack/plugin/security/src/main/java/org/elasticsearch/xpack/security/authz/store/CompositeRolesStore.java:196-214 | with two references (an API key), a failure of the first is the answer and the second is not looked up; otherwise the second is looked up in the state the first left and the role is the first limited by the second |
| RolesStore.RolesOfAuthentication | x-pack/plugin/security/src/main/java/org/elasticsearch/xpack/security/authz/store/CompositeRolesStore.java:170-185 | the effective subject's role comes first; without run-as the pair is that role twice and the state is that lookup's; with run-as the second is the authenticating subject's role, looked up in the state the first lookup left, whose state is the final one; the request fails exactly when one of the needed lookups fails, with that lookup's error |

## Left out

- Concurrency: the update lock, the atomic counter and thread hand-offs. Callbacks run as sequential continuations, and the counter is a natural number.
- Cache bounding and eviction by maximum weight. Both caches are unbounded maps and sets.
- Clearing the document-level-security bitset cache on `invalidateAll`. That cache is not part of this model.
- `usageStats`, logging and the warning on superuser fallback.
- Turning names into privileges. `Role.builder`, `IndexPrivilege.get`, `ApplicationPrivilege.get`, the field-permissions cache and the automata are not modelled: a built role holds the merged names, groups and queries the builder receives. A limited role is an uninterpreted pair.
- The application privileges the store returns. They only feed `ApplicationPrivilege.get`, so the store is modelled by whether it succeeds.
- Resolving references into descriptors (`RoleDescriptorStore`, role providers, the API key and service account services). It is the `Resolver` parameter. The key of a reference is the `roleKeyOf` parameter, because `RoleReference.id()` is not part of this model.
- The security index predicates. `isMoveFromRedToNonRed` and `isIndexDeleted` are not part of this model. They are defined to agree with the index-state tests (`CompositeRolesStoreTests.java:1080-1110`): the index recovered when it was absent or red and is now present and not red; it was deleted when it was present and is now absent.
- User identity. `SystemUser`, `XPackUser`, `XPackSecurityUser` and `AsyncSearchUser` are not part of this model. An internal user is recognised by its principal (`_system`, `_xpack`, `_xpack_security`, `_async_search`).
- User equality with the anonymous user is structural equality of the modelled user fields.
- Index patterns, field names and queries are kept as the strings and bytes given. Parsing the `{}` payload is exact byte comparison with the two bytes `{` and `}`, and the case-insensitive comparison with `none` is ASCII-only.
- Runtime assertions (`assert` in Java) are not modelled. They are disabled in production builds.
- The negative-lookup cache is read by `RoleDescriptorStore`, which receives it (`CompositeRolesStore.java:158-166`). The `Resolver` parameter does not see the cache state, so in this model the negative cache is written and invalidated but never read.
- Versions keep only major, minor and revision. The build part of the version id (alpha, beta and release-candidate builds), which `Version.before` also compares, is dropped, so a pre-release of 7.9.0 counts as 7.9.0 here.
- `Subjects.GetRoleReferences`: the unreachable `default` branch of the subject-type switch is not modelled, because the three types are exhaustive.
