/**
 * Building one role from a collection of role descriptors: cluster and run-as
 * names are unioned, index privileges are grouped by their exact set of index
 * names (separately for entries that may and may not touch restricted indices),
 * and application privilege names are unioned per application and resource set.
 *
 * The functions in the first half specify the result; the class and methods in
 * the second half build it the way the Java code does, by growing sets and maps
 * and merging grouped index privileges in place.
 */
module RoleMerge {
  import opened Common

  // ---------------------------------------------------------------------------
  // Role descriptors (read-only input) and roles (output)
  // ---------------------------------------------------------------------------

  /** The privilege names of an index privilege entry; a descriptor never has none. */
  type PrivilegeNames = s: seq<string> | |s| > 0 witness ["none"]

  /** One field-level security rule: the fields granted and the fields excluded from them. */
  datatype FieldGrantExcludeGroup = FieldGrantExcludeGroup(grantedFields: Option<seq<string>>, deniedFields: Option<seq<string>>)

  /** One index privilege entry of a role descriptor; `query` is its document-level filter. */
  datatype IndicesPrivileges = IndicesPrivileges(
    indices: seq<string>,
    privileges: PrivilegeNames,
    grantedFields: Option<seq<string>>,
    deniedFields: Option<seq<string>>,
    query: Option<Bytes>,
    allowRestrictedIndices: bool)

  datatype ApplicationResourcePrivileges = ApplicationResourcePrivileges(application: string, privileges: seq<string>, resources: seq<string>)

  /** A conditional cluster privilege, kept as it was written. */
  datatype ConfigurableClusterPrivilege = ConfigurableClusterPrivilege(definition: string)

  datatype RoleDescriptor = RoleDescriptor(
    name: string,
    clusterPrivileges: seq<string>,
    conditionalClusterPrivileges: seq<ConfigurableClusterPrivilege>,
    indicesPrivileges: seq<IndicesPrivileges>,
    applicationPrivileges: seq<ApplicationResourcePrivileges>,
    runAs: seq<string>)

  /**
   * The merge of the index privilege entries that share one set of index names.
   * A `query` of None grants every document; Some(qs) grants the documents any
   * query in qs matches.
   */
  datatype IndicesGroup = IndicesGroup(
    indices: set<string>,
    privileges: set<string>,
    fieldGroups: set<FieldGrantExcludeGroup>,
    query: Option<set<Bytes>>)

  datatype ApplicationKey = ApplicationKey(application: string, resources: set<string>)

  /** The run-as privilege; an empty set of names compiles to the NONE privilege. */
  datatype RunAsPrivilege = NoRunAs | RunAs(names: set<string>)

  /**
   * An effective role. The fixed roles are built once from static descriptors;
   * a built role holds what the merge hands to the role builder (turning names
   * into privilege automata is not part of this model); a limited role is the
   * result of the limiting combinator applied to two roles.
   */
  datatype Role =
    | EmptyRole
    | SuperuserRole
    | XPackUserRole
    | XPackSecurityRole
    | AsyncSearchUserRole
    | BuiltRole(
        names: seq<string>,
        cluster: set<string>,
        conditionalCluster: seq<ConfigurableClusterPrivilege>,
        runAs: RunAsPrivilege,
        indices: map<set<string>, IndicesGroup>,
        restrictedIndices: map<set<string>, IndicesGroup>,
        applications: map<ApplicationKey, set<string>>)
    | LimitedRole(role: Role, limitedBy: Role)

  /** A request to the application privilege store. */
  datatype PrivilegesRequest = PrivilegesRequest(applications: set<string>, privileges: set<string>)

  // ---------------------------------------------------------------------------
  // Specification of the merge
  // ---------------------------------------------------------------------------

  function ToSet(s: seq<string>): set<string> {
    set x | x in s
  }

  /** `p` is "none" in any mix of upper and lower case. */
  predicate IsNone(p: string) {
    && |p| == 4
    && (p[0] == 'n' || p[0] == 'N')
    && (p[1] == 'o' || p[1] == 'O')
    && (p[2] == 'n' || p[2] == 'N')
    && (p[3] == 'e' || p[3] == 'E')
  }

  /**
   * An entry is an explicit denial when it is the only entry of its descriptor
   * and its first privilege is "none"; such entries were always skipped.
   */
  predicate IsExplicitDenial(all: seq<IndicesPrivileges>, e: IndicesPrivileges) {
    |all| == 1 && IsNone(e.privileges[0])
  }

  /** Whether an entry of `all` goes into the group map for `restricted`. */
  predicate Collated(all: seq<IndicesPrivileges>, e: IndicesPrivileges, restricted: bool) {
    !IsExplicitDenial(all, e) && e.allowRestrictedIndices == restricted
  }

  function KeyOf(e: IndicesPrivileges): set<string> {
    ToSet(e.indices)
  }

  function FieldGroupOf(e: IndicesPrivileges): FieldGrantExcludeGroup {
    FieldGrantExcludeGroup(e.grantedFields, e.deniedFields)
  }

  function GroupOf(e: IndicesPrivileges): IndicesGroup {
    IndicesGroup(KeyOf(e), ToSet(e.privileges), {FieldGroupOf(e)}, if e.query.Some? then Some({e.query.value}) else None)
  }

  /** Two groups for the same indices: unions, and an unrestricted query wins. */
  function MergeGroups(a: IndicesGroup, b: IndicesGroup): IndicesGroup {
    IndicesGroup(
      a.indices,
      a.privileges + b.privileges,
      a.fieldGroups + b.fieldGroups,
      if a.query.None? || b.query.None? then None else Some(a.query.value + b.query.value))
  }

  function Insert(m: map<set<string>, IndicesGroup>, e: IndicesPrivileges): map<set<string>, IndicesGroup> {
    var k := KeyOf(e);
    m[k := if k in m then MergeGroups(m[k], GroupOf(e)) else GroupOf(e)]
  }

  /** The groups after inserting the entries `es` into `m`, in order. */
  function GroupFrom(m: map<set<string>, IndicesGroup>, es: seq<IndicesPrivileges>): map<set<string>, IndicesGroup>
  {
    if es == [] then m else Insert(GroupFrom(m, es[..|es| - 1]), es[|es| - 1])
  }

  /** The entries among the first `n` of `all` that are grouped for `restricted`. */
  function CollatedEntries(all: seq<IndicesPrivileges>, n: nat, restricted: bool): seq<IndicesPrivileges>
    requires n <= |all|
  {
    if n == 0 then []
    else CollatedEntries(all, n - 1, restricted) + (if Collated(all, all[n - 1], restricted) then [all[n - 1]] else [])
  }

  /** The index privilege entries of all descriptors that are grouped for `restricted`. */
  function KeptEntries(ds: seq<RoleDescriptor>, restricted: bool): seq<IndicesPrivileges>
  {
    if ds == [] then []
    else
      var d := ds[|ds| - 1];
      KeptEntries(ds[..|ds| - 1], restricted) + CollatedEntries(d.indicesPrivileges, |d.indicesPrivileges|, restricted)
  }

  function ClusterUnion(ds: seq<RoleDescriptor>): set<string> {
    if ds == [] then {} else ClusterUnion(ds[..|ds| - 1]) + ToSet(ds[|ds| - 1].clusterPrivileges)
  }

  function RunAsUnion(ds: seq<RoleDescriptor>): set<string> {
    if ds == [] then {} else RunAsUnion(ds[..|ds| - 1]) + ToSet(ds[|ds| - 1].runAs)
  }

  function ConditionalConcat(ds: seq<RoleDescriptor>): seq<ConfigurableClusterPrivilege> {
    if ds == [] then [] else ConditionalConcat(ds[..|ds| - 1]) + ds[|ds| - 1].conditionalClusterPrivileges
  }

  function NamesOf(ds: seq<RoleDescriptor>): seq<string> {
    if ds == [] then [] else NamesOf(ds[..|ds| - 1]) + [ds[|ds| - 1].name]
  }

  function AppKeyOf(a: ApplicationResourcePrivileges): ApplicationKey {
    ApplicationKey(a.application, ToSet(a.resources))
  }

  function AppInsert(m: map<ApplicationKey, set<string>>, a: ApplicationResourcePrivileges): map<ApplicationKey, set<string>> {
    var k := AppKeyOf(a);
    m[k := if k in m then m[k] + ToSet(a.privileges) else ToSet(a.privileges)]
  }

  /** The application groups after inserting the first `n` application entries of `entries`. */
  function AppGroupsFrom(m: map<ApplicationKey, set<string>>, entries: seq<ApplicationResourcePrivileges>, n: nat): map<ApplicationKey, set<string>>
    requires n <= |entries|
  {
    if n == 0 then m else AppInsert(AppGroupsFrom(m, entries, n - 1), entries[n - 1])
  }

  function AppGroups(ds: seq<RoleDescriptor>): map<ApplicationKey, set<string>> {
    if ds == [] then map[]
    else
      var d := ds[|ds| - 1];
      AppGroupsFrom(AppGroups(ds[..|ds| - 1]), d.applicationPrivileges, |d.applicationPrivileges|)
  }

  /** The applications and the privilege names asked of the application privilege store. */
  function RequestFor(apps: map<ApplicationKey, set<string>>): PrivilegesRequest {
    PrivilegesRequest(set k | k in apps :: k.application, set k, p | k in apps && p in apps[k] :: p)
  }

  function RunAsOf(names: set<string>): RunAsPrivilege {
    if names == {} then NoRunAs else RunAs(names)
  }

  /**
   * The role built from `ds`. `privilegeStore` answers the application privilege
   * lookup with None on success or the failure it reported; it is asked only when
   * some descriptor grants application privileges.
   */
  function MergeDescriptors(ds: seq<RoleDescriptor>, privilegeStore: PrivilegesRequest -> Option<Failure>): Result<Role>
  {
    if ds == [] then Ok(EmptyRole)
    else
      var apps := AppGroups(ds);
      var role := BuiltRole(
        NamesOf(ds), ClusterUnion(ds), ConditionalConcat(ds), RunAsOf(RunAsUnion(ds)),
        GroupFrom(map[], KeptEntries(ds, false)), GroupFrom(map[], KeptEntries(ds, true)), apps);
      if apps == map[] then Ok(role)
      else match privilegeStore(RequestFor(apps))
        case None => Ok(role)
        case Some(e) => Err(e)
  }

  // ---------------------------------------------------------------------------
  // Building the role in place
  // ---------------------------------------------------------------------------

  /** The grouped index privileges for one set of index names, merged in place. */
  class MergeableIndicesPrivilege {
    const indices: set<string>
    var privileges: set<string>
    var fieldGroups: set<FieldGrantExcludeGroup>
    var query: Option<set<Bytes>>

    function View(): IndicesGroup
      reads this
    {
      IndicesGroup(indices, privileges, fieldGroups, query)
    }

    constructor (
      indices: seq<string>,
      privileges: seq<string>,
      grantedFields: Option<seq<string>>,
      deniedFields: Option<seq<string>>,
      query: Option<Bytes>)
      ensures this.indices == ToSet(indices)
      ensures View() == IndicesGroup(
        ToSet(indices), ToSet(privileges), {FieldGrantExcludeGroup(grantedFields, deniedFields)},
        if query.Some? then Some({query.value}) else None)
    {
      this.indices := ToSet(indices);
      this.privileges := ToSet(privileges);
      this.fieldGroups := {FieldGrantExcludeGroup(grantedFields, deniedFields)};
      this.query := if query.Some? then Some({query.value}) else None;
    }

    /** Adds the privileges, field rules and queries of `other`, for the same indices. */
    method Merge(other: MergeableIndicesPrivilege)
      requires other.indices == indices
      modifies this
      ensures View() == MergeGroups(old(View()), old(other.View()))
    {
      var otherPrivileges, otherGroups, otherQuery := other.privileges, other.fieldGroups, other.query;
      fieldGroups := fieldGroups + otherGroups;
      privileges := privileges + otherPrivileges;
      if query.None? || otherQuery.None? {
        query := None;
      } else {
        query := Some(query.value + otherQuery.value);
      }
    }

    /**
     * Merges every entry of `all` that is not an explicit denial and whose
     * restricted-indices flag is `restricted` into the group for its index names.
     * Groups already in `groups` are merged in place; new groups are fresh.
     */
    static method CollatePrivilegesByIndices(
      all: seq<IndicesPrivileges>,
      restricted: bool,
      groups: map<set<string>, MergeableIndicesPrivilege>)
      returns (result: map<set<string>, MergeableIndicesPrivilege>)
      requires WellKeyed(groups)
      modifies groups.Values
      ensures WellKeyed(result)
      ensures forall k :: k in groups ==> k in result && result[k] == groups[k]
      ensures forall k :: k in result && k !in groups ==> fresh(result[k])
      ensures Snapshot(result) == GroupFrom(old(Snapshot(groups)), CollatedEntries(all, |all|, restricted))
    {
      result := groups;
      var i := 0;
      while i < |all|
        invariant 0 <= i <= |all|
        invariant WellKeyed(result)
        invariant forall k :: k in groups ==> k in result && result[k] == groups[k]
        invariant forall k :: k in result && k !in groups ==> fresh(result[k])
        invariant Snapshot(result) == GroupFrom(old(Snapshot(groups)), CollatedEntries(all, i, restricted))
      {
        var entry := all[i];
        ghost var done := CollatedEntries(all, i, restricted);
        var isExplicitDenial := |all| == 1 && IsNone(entry.privileges[0]);
        if !isExplicitDenial && entry.allowRestrictedIndices == restricted {
          result := CollateOne(entry, result);
          assert (done + [entry])[..|done + [entry]| - 1] == done;
        } else {
          assert done + [] == done;
        }
        i := i + 1;
      }
    }

    /** Merges one entry into the group for its index names, creating the group if absent. */
    static method CollateOne(entry: IndicesPrivileges, groups: map<set<string>, MergeableIndicesPrivilege>)
      returns (result: map<set<string>, MergeableIndicesPrivilege>)
      requires WellKeyed(groups)
      modifies groups.Values
      ensures WellKeyed(result)
      ensures forall k :: k in groups ==> k in result && result[k] == groups[k]
      ensures forall k :: k in result && k !in groups ==> fresh(result[k])
      ensures Snapshot(result) == Insert(old(Snapshot(groups)), entry)
    {
      var key := ToSet(entry.indices);
      var incoming := new MergeableIndicesPrivilege(
        entry.indices, entry.privileges, entry.grantedFields, entry.deniedFields, entry.query);
      if key in groups {
        var existing := groups[key];
        existing.Merge(incoming);
        result := groups;
        forall k | k in result && k != key
          ensures result[k].View() == old(result[k].View())
        {
          assert result[k] != existing;
        }
      } else {
        result := groups[key := incoming];
      }
    }
  }

  /**
   * Builds the role for `ds` descriptor by descriptor: names are appended, cluster
   * and run-as names and application privileges accumulated, and the index
   * privileges collated into two maps of groups (restricted and not), before the
   * application privilege store is asked about the applications, if there are any.
   */
  method BuildRoleFromDescriptors(ds: seq<RoleDescriptor>, privilegeStore: PrivilegesRequest -> Option<Failure>)
    returns (r: Result<Role>)
    ensures r == MergeDescriptors(ds, privilegeStore)
  {
    if |ds| == 0 {
      return Ok(EmptyRole);
    }
    var clusterPrivileges: set<string> := {};
    var configurableClusterPrivileges: seq<ConfigurableClusterPrivilege> := [];
    var runAs: set<string> := {};
    var restrictedIndicesPrivileges: map<set<string>, MergeableIndicesPrivilege> := map[];
    var indicesPrivileges: map<set<string>, MergeableIndicesPrivilege> := map[];
    var applicationPrivileges: map<ApplicationKey, set<string>> := map[];
    var roleNames: seq<string> := [];
    var i := 0;
    while i < |ds|
      invariant 0 <= i <= |ds|
      invariant roleNames == NamesOf(ds[..i])
      invariant clusterPrivileges == ClusterUnion(ds[..i])
      invariant configurableClusterPrivileges == ConditionalConcat(ds[..i])
      invariant runAs == RunAsUnion(ds[..i])
      invariant applicationPrivileges == AppGroups(ds[..i])
      invariant WellKeyed(restrictedIndicesPrivileges) && WellKeyed(indicesPrivileges)
      invariant forall k :: k in restrictedIndicesPrivileges ==> fresh(restrictedIndicesPrivileges[k])
      invariant forall k :: k in indicesPrivileges ==> fresh(indicesPrivileges[k])
      invariant Apart(restrictedIndicesPrivileges, indicesPrivileges)
      invariant Snapshot(restrictedIndicesPrivileges) == GroupFrom(map[], KeptEntries(ds[..i], true))
      invariant Snapshot(indicesPrivileges) == GroupFrom(map[], KeptEntries(ds[..i], false))
    {
      var descriptor := ds[i];
      assert ds[..i + 1][..i] == ds[..i];
      roleNames := roleNames + [descriptor.name];
      clusterPrivileges := clusterPrivileges + ToSet(descriptor.clusterPrivileges);
      configurableClusterPrivileges := configurableClusterPrivileges + descriptor.conditionalClusterPrivileges;
      runAs := runAs + ToSet(descriptor.runAs);
      restrictedIndicesPrivileges, indicesPrivileges :=
        CollateDescriptor(ds, i, restrictedIndicesPrivileges, indicesPrivileges);
      applicationPrivileges := AddApplicationPrivileges(applicationPrivileges, descriptor.applicationPrivileges);
      i := i + 1;
    }
    assert ds[..i] == ds;
    var runAsPrivilege := if runAs == {} then NoRunAs else RunAs(runAs);
    var role := BuiltRole(
      roleNames, clusterPrivileges, configurableClusterPrivileges, runAsPrivilege,
      Snapshot(indicesPrivileges), Snapshot(restrictedIndicesPrivileges), applicationPrivileges);
    r := CheckApplicationPrivileges(role, applicationPrivileges, privilegeStore);
  }

  /**
   * Hands back `role` once the application privilege store has confirmed the
   * applications and privilege names it mentions, or the store's failure; with
   * no application privileges the store is not asked.
   */
  method CheckApplicationPrivileges(
    role: Role, applicationPrivileges: map<ApplicationKey, set<string>>, privilegeStore: PrivilegesRequest -> Option<Failure>)
    returns (r: Result<Role>)
    ensures applicationPrivileges == map[] ==> r == Ok(role)
    ensures applicationPrivileges != map[] ==>
              r == (match privilegeStore(RequestFor(applicationPrivileges)) case None => Ok(role) case Some(e) => Err(e))
  {
    if applicationPrivileges == map[] {
      return Ok(role);
    }
    var applicationNames := set k | k in applicationPrivileges :: k.application;
    var applicationPrivilegeNames := set k, p | k in applicationPrivileges && p in applicationPrivileges[k] :: p;
    match privilegeStore(PrivilegesRequest(applicationNames, applicationPrivilegeNames))
    case None => r := Ok(role);
    case Some(e) => r := Err(e);
  }

  /**
   * Collates the index privileges of descriptor `ds[i]` into both group maps, the
   * restricted map first as the Java code does.
   */
  method CollateDescriptor(
    ds: seq<RoleDescriptor>, i: nat,
    restricted: map<set<string>, MergeableIndicesPrivilege>,
    unrestricted: map<set<string>, MergeableIndicesPrivilege>)
    returns (restricted': map<set<string>, MergeableIndicesPrivilege>, unrestricted': map<set<string>, MergeableIndicesPrivilege>)
    requires i < |ds|
    requires WellKeyed(restricted) && WellKeyed(unrestricted) && Apart(restricted, unrestricted)
    requires Snapshot(restricted) == GroupFrom(map[], KeptEntries(ds[..i], true))
    requires Snapshot(unrestricted) == GroupFrom(map[], KeptEntries(ds[..i], false))
    modifies restricted.Values, unrestricted.Values
    ensures WellKeyed(restricted') && WellKeyed(unrestricted') && Apart(restricted', unrestricted')
    ensures forall k :: k in restricted' ==> (k in restricted && restricted'[k] == restricted[k]) || fresh(restricted'[k])
    ensures forall k :: k in unrestricted' ==> (k in unrestricted && unrestricted'[k] == unrestricted[k]) || fresh(unrestricted'[k])
    ensures Snapshot(restricted') == GroupFrom(map[], KeptEntries(ds[..i + 1], true))
    ensures Snapshot(unrestricted') == GroupFrom(map[], KeptEntries(ds[..i + 1], false))
  {
    var entries := ds[i].indicesPrivileges;
    assert ds[..i + 1][..i] == ds[..i];
    GroupFromConcat(map[], KeptEntries(ds[..i], true), CollatedEntries(entries, |entries|, true));
    GroupFromConcat(map[], KeptEntries(ds[..i], false), CollatedEntries(entries, |entries|, false));
    restricted' := CollateBeside(entries, true, restricted, unrestricted);
    unrestricted' := CollateBeside(entries, false, unrestricted, restricted');
  }

  /**
   * Collates `entries` into `target`, leaving the groups of `other`, which shares
   * no object with it, as they were.
   */
  method CollateBeside(
    entries: seq<IndicesPrivileges>, restricted: bool,
    target: map<set<string>, MergeableIndicesPrivilege>,
    other: map<set<string>, MergeableIndicesPrivilege>)
    returns (target': map<set<string>, MergeableIndicesPrivilege>)
    requires WellKeyed(target) && (Apart(target, other) || Apart(other, target))
    modifies target.Values
    ensures WellKeyed(target') && Apart(target', other) && Apart(other, target')
    ensures forall k :: k in target' ==> (k in target && target'[k] == target[k]) || fresh(target'[k])
    ensures Snapshot(target') == GroupFrom(old(Snapshot(target)), CollatedEntries(entries, |entries|, restricted))
    ensures Snapshot(other) == old(Snapshot(other))
  {
    target' := MergeableIndicesPrivilege.CollatePrivilegesByIndices(entries, restricted, target);
  }

  /** Adds application privilege entries to the application groups, in order. */
  method AddApplicationPrivileges(apps: map<ApplicationKey, set<string>>, entries: seq<ApplicationResourcePrivileges>)
    returns (r: map<ApplicationKey, set<string>>)
    ensures r == AppGroupsFrom(apps, entries, |entries|)
  {
    r := apps;
    var j := 0;
    while j < |entries|
      invariant 0 <= j <= |entries|
      invariant r == AppGroupsFrom(apps, entries, j)
    {
      var appPrivilege := entries[j];
      var key := ApplicationKey(appPrivilege.application, ToSet(appPrivilege.resources));
      if key in r {
        r := r[key := r[key] + ToSet(appPrivilege.privileges)];
      } else {
        r := r[key := ToSet(appPrivilege.privileges)];
      }
      j := j + 1;
    }
  }

  /** Inserting `a` and then `b` is inserting `a + b`. */
  lemma {:induction false} GroupFromConcat(m: map<set<string>, IndicesGroup>, a: seq<IndicesPrivileges>, b: seq<IndicesPrivileges>)
    ensures GroupFrom(GroupFrom(m, a), b) == GroupFrom(m, a + b)
    decreases |b|
  {
    if b == [] {
      assert a + b == a;
    } else {
      GroupFromConcat(m, a, b[..|b| - 1]);
      assert (a + b)[..|a + b| - 1] == a + b[..|b| - 1];
    }
  }

  /** No group object is shared between the two maps. */
  ghost predicate Apart(a: map<set<string>, MergeableIndicesPrivilege>, b: map<set<string>, MergeableIndicesPrivilege>) {
    forall k1, k2 :: k1 in a && k2 in b ==> a[k1] != b[k2]
  }

  /** Each group is stored under its own index names, and no two keys share a group. */
  ghost predicate WellKeyed(groups: map<set<string>, MergeableIndicesPrivilege>) {
    && (forall k :: k in groups ==> groups[k].indices == k)
    && (forall k1, k2 :: k1 in groups && k2 in groups && k1 != k2 ==> groups[k1] != groups[k2])
  }

  /** The current content of every group. */
  function Snapshot(groups: map<set<string>, MergeableIndicesPrivilege>): map<set<string>, IndicesGroup>
    reads groups.Values
  {
    map k | k in groups :: groups[k].View()
  }

  // ---------------------------------------------------------------------------
  // What the merged role contains
  // ---------------------------------------------------------------------------

  /** The cluster privileges of the merge are those of some descriptor. */
  lemma {:induction false} ClusterUnionMembers(ds: seq<RoleDescriptor>, p: string)
    ensures p in ClusterUnion(ds) <==> exists d :: d in ds && p in d.clusterPrivileges
  {
    if ds != [] {
      ClusterUnionMembers(ds[..|ds| - 1], p);
      assert ds == ds[..|ds| - 1] + [ds[|ds| - 1]];
    }
  }

  /** The run-as names of the merge are those of some descriptor. */
  lemma {:induction false} RunAsUnionMembers(ds: seq<RoleDescriptor>, u: string)
    ensures u in RunAsUnion(ds) <==> exists d :: d in ds && u in d.runAs
  {
    if ds != [] {
      RunAsUnionMembers(ds[..|ds| - 1], u);
      assert ds == ds[..|ds| - 1] + [ds[|ds| - 1]];
    }
  }

  /** The role's names are the descriptors' names, in the order of the descriptors. */
  lemma {:induction false} NamesInOrder(ds: seq<RoleDescriptor>)
    ensures |NamesOf(ds)| == |ds|
    ensures forall i :: 0 <= i < |ds| ==> NamesOf(ds)[i] == ds[i].name
  {
    if ds != [] {
      NamesInOrder(ds[..|ds| - 1]);
    }
  }

  /** An entry is grouped exactly when it is one of `all` and is collated for `restricted`. */
  lemma {:induction false} CollatedEntriesMembers(all: seq<IndicesPrivileges>, n: nat, restricted: bool, e: IndicesPrivileges)
    requires n <= |all|
    ensures e in CollatedEntries(all, n, restricted) <==> e in all[..n] && Collated(all, e, restricted)
  {
    if n > 0 {
      CollatedEntriesMembers(all, n - 1, restricted, e);
      assert all[..n] == all[..n - 1] + [all[n - 1]];
    }
  }

  /**
   * The entries grouped for `restricted` are the entries of the descriptors that
   * are not explicit denials and carry that restricted-indices flag.
   */
  lemma {:induction false} KeptEntriesMembers(ds: seq<RoleDescriptor>, restricted: bool, e: IndicesPrivileges)
    ensures e in KeptEntries(ds, restricted) <==>
      exists d :: d in ds && e in d.indicesPrivileges && Collated(d.indicesPrivileges, e, restricted)
  {
    if ds != [] {
      var d := ds[|ds| - 1];
      KeptEntriesMembers(ds[..|ds| - 1], restricted, e);
      CollatedEntriesMembers(d.indicesPrivileges, |d.indicesPrivileges|, restricted, e);
      assert d.indicesPrivileges[..|d.indicesPrivileges|] == d.indicesPrivileges;
      assert ds == ds[..|ds| - 1] + [d];
    }
  }

  /** A group exists for exactly the index-name sets of the grouped entries, under its own key. */
  lemma {:induction false} GroupKeys(es: seq<IndicesPrivileges>, k: set<string>)
    ensures k in GroupFrom(map[], es) <==> exists e :: e in es && KeyOf(e) == k
    ensures k in GroupFrom(map[], es) ==> GroupFrom(map[], es)[k].indices == k
  {
    if es != [] {
      GroupKeys(es[..|es| - 1], k);
      assert es == es[..|es| - 1] + [es[|es| - 1]];
    }
  }

  /** A group grants the union of the privileges of the entries with its index names. */
  lemma {:induction false} GroupPrivileges(es: seq<IndicesPrivileges>, k: set<string>, p: string)
    requires k in GroupFrom(map[], es)
    ensures p in GroupFrom(map[], es)[k].privileges <==> exists e :: e in es && KeyOf(e) == k && p in e.privileges
  {
    var init, last := es[..|es| - 1], es[|es| - 1];
    assert es == init + [last];
    GroupKeys(init, k);
    if k in GroupFrom(map[], init) {
      GroupPrivileges(init, k, p);
    }
  }

  /** A group carries the field rules of every entry with its index names. */
  lemma {:induction false} GroupFieldGroups(es: seq<IndicesPrivileges>, k: set<string>, g: FieldGrantExcludeGroup)
    requires k in GroupFrom(map[], es)
    ensures g in GroupFrom(map[], es)[k].fieldGroups <==> exists e :: e in es && KeyOf(e) == k && FieldGroupOf(e) == g
  {
    var init, last := es[..|es| - 1], es[|es| - 1];
    assert es == init + [last];
    GroupKeys(init, k);
    if k in GroupFrom(map[], init) {
      GroupFieldGroups(init, k, g);
    }
  }

  /**
   * A group restricts documents only when every entry with its index names has a
   * query, and then to the documents any of those queries matches.
   */
  lemma {:induction false} GroupQuery(es: seq<IndicesPrivileges>, k: set<string>, q: Bytes)
    requires k in GroupFrom(map[], es)
    ensures GroupFrom(map[], es)[k].query.None? <==> exists e :: e in es && KeyOf(e) == k && e.query.None?
    ensures GroupFrom(map[], es)[k].query.Some? ==>
      (q in GroupFrom(map[], es)[k].query.value <==> exists e :: e in es && KeyOf(e) == k && e.query == Some(q))
  {
    var init, last := es[..|es| - 1], es[|es| - 1];
    assert es == init + [last];
    GroupKeys(init, k);
    if k in GroupFrom(map[], init) {
      GroupQuery(init, k, q);
    }
  }

  /**
   * The groups depend only on which entries there are, not on their order or
   * repetition: the merge of descriptors is insensitive to the order in which
   * the entries arrive.
   */
  lemma GroupsIgnoreOrder(es1: seq<IndicesPrivileges>, es2: seq<IndicesPrivileges>)
    requires forall e :: e in es1 <==> e in es2
    ensures GroupFrom(map[], es1) == GroupFrom(map[], es2)
  {
    var g1, g2 := GroupFrom(map[], es1), GroupFrom(map[], es2);
    forall k
      ensures k in g1 <==> k in g2
    {
      GroupKeys(es1, k);
      GroupKeys(es2, k);
    }
    forall k | k in g1
      ensures g1[k] == g2[k]
    {
      GroupKeys(es1, k);
      GroupKeys(es2, k);
      forall p
        ensures p in g1[k].privileges <==> p in g2[k].privileges
      {
        GroupPrivileges(es1, k, p);
        GroupPrivileges(es2, k, p);
      }
      forall g
        ensures g in g1[k].fieldGroups <==> g in g2[k].fieldGroups
      {
        GroupFieldGroups(es1, k, g);
        GroupFieldGroups(es2, k, g);
      }
      GroupQuery(es1, k, []);
      GroupQuery(es2, k, []);
      if g1[k].query.Some? {
        forall q
          ensures q in g1[k].query.value <==> q in g2[k].query.value
        {
          GroupQuery(es1, k, q);
          GroupQuery(es2, k, q);
        }
        assert g1[k].query.value == g2[k].query.value;
      }
      assert g1[k].privileges == g2[k].privileges;
      assert g1[k].fieldGroups == g2[k].fieldGroups;
    }
  }

  /** The application groups hold the privileges of every entry with that application and resources. */
  lemma {:induction false} AppGroupsFromMembers(
    m: map<ApplicationKey, set<string>>, entries: seq<ApplicationResourcePrivileges>, n: nat, k: ApplicationKey, p: string)
    requires n <= |entries|
    ensures k in AppGroupsFrom(m, entries, n) <==> k in m || exists j :: 0 <= j < n && AppKeyOf(entries[j]) == k
    ensures k in AppGroupsFrom(m, entries, n) ==>
      (p in AppGroupsFrom(m, entries, n)[k] <==>
        (k in m && p in m[k]) || exists j :: 0 <= j < n && AppKeyOf(entries[j]) == k && p in entries[j].privileges)
  {
    if n > 0 {
      AppGroupsFromMembers(m, entries, n - 1, k, p);
    }
  }

  lemma {:induction false} AppGroupsMembers(ds: seq<RoleDescriptor>, k: ApplicationKey, p: string)
    ensures k in AppGroups(ds) <==>
      exists d, a :: d in ds && a in d.applicationPrivileges && AppKeyOf(a) == k
    ensures k in AppGroups(ds) ==>
      (p in AppGroups(ds)[k] <==>
        exists d, a :: d in ds && a in d.applicationPrivileges && AppKeyOf(a) == k && p in a.privileges)
  {
    if ds != [] {
      var init, d := ds[..|ds| - 1], ds[|ds| - 1];
      var entries := d.applicationPrivileges;
      AppGroupsMembers(init, k, p);
      AppGroupsFromMembers(AppGroups(init), entries, |entries|, k, p);
      assert ds == init + [d];
      assert forall a :: a in entries <==> exists j :: 0 <= j < |entries| && entries[j] == a;
    }
  }

  /**
   * The merged role, when the privilege store accepts the request: its index
   * groups come from the non-restricted, non-denial entries of the descriptors
   * and its restricted groups from the restricted ones.
   */
  lemma MergedIndexGroups(
    ds: seq<RoleDescriptor>, privilegeStore: PrivilegesRequest -> Option<Failure>,
    restricted: bool, k: set<string>, p: string)
    requires ds != [] && MergeDescriptors(ds, privilegeStore).Ok?
    ensures MergeDescriptors(ds, privilegeStore).value.BuiltRole?
    ensures var role := MergeDescriptors(ds, privilegeStore).value;
      var groups := if restricted then role.restrictedIndices else role.indices;
      && (k in groups <==>
            (exists d, e :: d in ds && e in d.indicesPrivileges
               && Collated(d.indicesPrivileges, e, restricted) && KeyOf(e) == k))
      && (k in groups ==>
            (p in groups[k].privileges <==>
              (exists d, e :: d in ds && e in d.indicesPrivileges
                 && Collated(d.indicesPrivileges, e, restricted) && KeyOf(e) == k && p in e.privileges)))
  {
    var es := KeptEntries(ds, restricted);
    GroupKeys(es, k);
    forall e
      ensures e in es <==> exists d :: d in ds && e in d.indicesPrivileges && Collated(d.indicesPrivileges, e, restricted)
    {
      KeptEntriesMembers(ds, restricted, e);
    }
    if k in GroupFrom(map[], es) {
      GroupPrivileges(es, k, p);
    }
  }

  /**
   * Building fails exactly when some descriptor grants application privileges
   * and the privilege store reports a failure; the failure is passed on as is.
   */
  lemma MergeFailure(ds: seq<RoleDescriptor>, privilegeStore: PrivilegesRequest -> Option<Failure>)
    ensures MergeDescriptors(ds, privilegeStore).Err? <==>
      (exists d, a :: d in ds && a in d.applicationPrivileges) && privilegeStore(RequestFor(AppGroups(ds))).Some?
    ensures MergeDescriptors(ds, privilegeStore).Err? ==>
      MergeDescriptors(ds, privilegeStore).error == privilegeStore(RequestFor(AppGroups(ds))).value
  {
    if exists d, a :: d in ds && a in d.applicationPrivileges {
      var d, a :| d in ds && a in d.applicationPrivileges;
      AppGroupsMembers(ds, AppKeyOf(a), "");
    } else if AppGroups(ds) != map[] {
      var k :| k in AppGroups(ds);
      AppGroupsMembers(ds, k, "");
    }
  }

  /**
   * The shape of a merge: no descriptors give the empty role, whatever the
   * privilege store says; otherwise a success is a built role named after the
   * descriptors, and a failure is the privilege store's own failure, which can
   * happen only when application privileges are asked for.
   */
  lemma MergeOutcome(ds: seq<RoleDescriptor>, privilegeStore: PrivilegesRequest -> Option<Failure>)
    ensures var r := MergeDescriptors(ds, privilegeStore);
      && (ds == [] ==> r == Ok(EmptyRole))
      && (ds != [] && r.Ok? ==> r.value.BuiltRole? && r.value.names == NamesOf(ds))
      && (r.Err? ==> AppGroups(ds) != map[] && privilegeStore(RequestFor(AppGroups(ds))) == Some(r.error))
  {
  }

  /** The run-as privilege is NONE exactly when no descriptor names a run-as user. */
  lemma RunAsNone(ds: seq<RoleDescriptor>)
    ensures RunAsOf(RunAsUnion(ds)) == NoRunAs <==> forall d :: d in ds ==> d.runAs == []
  {
    if RunAsUnion(ds) != {} {
      var u :| u in RunAsUnion(ds);
      RunAsUnionMembers(ds, u);
    }
    if exists d :: d in ds && d.runAs != [] {
      var d :| d in ds && d.runAs != [];
      RunAsUnionMembers(ds, d.runAs[0]);
    }
  }

  /** An index entry that is its descriptor's only entry and grants "none" never reaches a group. */
  lemma ExplicitDenialIsSkipped(ds: seq<RoleDescriptor>, restricted: bool, e: IndicesPrivileges)
    requires forall d :: d in ds && e in d.indicesPrivileges ==> d.indicesPrivileges == [e]
    requires IsNone(e.privileges[0])
    ensures e !in KeptEntries(ds, restricted)
  {
    KeptEntriesMembers(ds, restricted, e);
  }
}
