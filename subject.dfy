/**
 * The subject of an authentication: a user, an API key or a service account,
 * and the ordered role references from which its effective role is built.
 * A subject is immutable; every operation here is a function of its fields.
 */
module Subjects {
  import opened Common

  // ---------------------------------------------------------------------------
  // Realms, users, versions and authentication metadata
  // ---------------------------------------------------------------------------

  const ApiKeyRealmType := "_es_api_key"
  const ServiceAccountRealmType := "_service_account"
  const ServiceAccountRealmName := "_service_account"
  const FleetServerPrincipal := "elastic/fleet-server"

  datatype RealmRef = RealmRef(name: string, realmType: string, nodeName: string)

  /**
   * A user. Two users are the same user when all of these fields agree, which is
   * what user equality in the Java code compares.
   */
  datatype User = User(principal: string, roles: seq<string>, fullName: Option<string>, email: Option<string>)

  /** The configured anonymous user, which may be switched off. */
  datatype AnonymousUser = AnonymousUser(user: User, enabled: bool)

  /** A node version; `Before` is the order of version identifiers. */
  datatype Version = Version(major: nat, minor: nat, revision: nat) {
    predicate Before(other: Version) {
      major < other.major
      || (major == other.major && minor < other.minor)
      || (major == other.major && minor == other.minor && revision < other.revision)
    }
  }

  /** The first version that stores an API key's role descriptors as bytes. */
  const ApiKeyRolesAsBytesVersion := Version(7, 9, 0)

  /** A value stored in authentication metadata. */
  datatype MetadataValue =
    | TextValue(text: string)
    | BytesValue(bytes: Bytes)
    | MapValue(entries: map<string, string>)   // role name -> role descriptor source

  /**
   * The authentication metadata entries the core reads, one field per key:
   * the API key id, its assigned role descriptors, its limited-by role
   * descriptors and the name of the realm of the key's creator.
   */
  datatype Metadata = Metadata(
    apiKeyId: Option<MetadataValue>,
    roleDescriptors: Option<MetadataValue>,
    limitedByRoleDescriptors: Option<MetadataValue>,
    creatorRealmName: Option<MetadataValue>)

  // The three casts of metadata values the Java code performs; a value of another
  // type is a failed cast.

  function AsText(v: Option<MetadataValue>): (r: Result<Option<string>>)
    ensures r.Ok? <==> v.None? || v.value.TextValue?
    ensures r.Ok? && v.None? ==> r.value == None
    ensures r.Ok? && v.Some? ==> v.value.TextValue? && r.value == Some(v.value.text)
    ensures r.Err? ==> r.error == WrongMetadataType
  {
    match v
    case None => Ok(None)
    case Some(TextValue(t)) => Ok(Some(t))
    case Some(_) => Err(WrongMetadataType)
  }

  function AsBytes(v: Option<MetadataValue>): (r: Result<Option<Bytes>>)
    ensures r.Ok? <==> v.None? || v.value.BytesValue?
    ensures r.Ok? && v.None? ==> r.value == None
    ensures r.Ok? && v.Some? ==> v.value.BytesValue? && r.value == Some(v.value.bytes)
    ensures r.Err? ==> r.error == WrongMetadataType
  {
    match v
    case None => Ok(None)
    case Some(BytesValue(b)) => Ok(Some(b))
    case Some(_) => Err(WrongMetadataType)
  }

  function AsMap(v: Option<MetadataValue>): (r: Result<Option<map<string, string>>>)
    ensures r.Ok? <==> v.None? || v.value.MapValue?
    ensures r.Ok? && v.None? ==> r.value == None
    ensures r.Ok? && v.Some? ==> v.value.MapValue? && r.value == Some(v.value.entries)
    ensures r.Err? ==> r.error == WrongMetadataType
  {
    match v
    case None => Ok(None)
    case Some(MapValue(m)) => Ok(Some(m))
    case Some(_) => Err(WrongMetadataType)
  }

  // ---------------------------------------------------------------------------
  // Role references
  // ---------------------------------------------------------------------------

  datatype ApiKeyRoleType = Assigned | LimitedBy

  /** Where the role descriptors for one part of a subject's role come from. */
  datatype RoleReference =
    | NamedRoleReference(roleNames: seq<string>)
    | ApiKeyRoleReference(apiKeyId: Option<string>, roleDescriptorsBytes: Bytes, roleType: ApiKeyRoleType)
    | BwcApiKeyRoleReference(apiKeyId: Option<string>, roleDescriptorsMap: Option<map<string, string>>, roleType: ApiKeyRoleType)
    | ServiceAccountRoleReference(principal: string)
  {
    /** True of a reference to an API key's role descriptors of the given kind. */
    predicate IsApiKey(t: ApiKeyRoleType) {
      (ApiKeyRoleReference? || BwcApiKeyRoleReference?) && roleType == t
    }
  }

  // ---------------------------------------------------------------------------
  // Subjects
  // ---------------------------------------------------------------------------

  datatype SubjectType = UserType | ApiKeyType | ServiceAccountType

  /** The type of a subject, decided by the type of its realm. */
  function TypeOf(realm: Option<RealmRef>): (t: SubjectType)
    ensures t == ApiKeyType <==> realm.Some? && realm.value.realmType == ApiKeyRealmType
    ensures t == ServiceAccountType <==> realm.Some? && realm.value.realmType == ServiceAccountRealmType
  {
    // A run-as user that does not exist has no realm; it is treated as a user.
    if realm.None? then UserType
    else if realm.value.realmType == ApiKeyRealmType then ApiKeyType
    else if realm.value.realmType == ServiceAccountRealmType then ServiceAccountType
    else UserType
  }

  datatype Subject = Subject(user: User, realm: Option<RealmRef>, version: Version, metadata: Metadata) {
    function Type(): SubjectType {
      TypeOf(realm)
    }
  }

  /** The role references of a subject: one, or two for an API key. */
  function GetRoleReferences(s: Subject, anonymous: Option<AnonymousUser>): (r: Result<seq<RoleReference>>)
    ensures r.Ok? ==> 1 <= |r.value| <= 2
    ensures r.Ok? && |r.value| == 2 ==> s.Type() == ApiKeyType
    ensures s.Type() == UserType && r.Ok? ==> |r.value| == 1 && r.value[0].NamedRoleReference?
    ensures s.Type() == ServiceAccountType ==> r == Ok([ServiceAccountRoleReference(s.user.principal)])
    ensures s.Type() != UserType && r.Ok? ==> forall i :: 0 <= i < |r.value| ==> !r.value[i].NamedRoleReference?
  {
    match s.Type()
    case UserType => BuildRoleReferencesForUser(s.user, anonymous)
    case ApiKeyType => BuildRoleReferencesForApiKey(s)
    case ServiceAccountType => Ok([ServiceAccountRoleReference(s.user.principal)])
  }

  function BuildRoleReferencesForUser(user: User, anonymous: Option<AnonymousUser>): (r: Result<seq<RoleReference>>)
    ensures r.Ok? ==> |r.value| == 1 && r.value[0].NamedRoleReference?
  {
    if anonymous.Some? && user == anonymous.value.user then
      Ok([NamedRoleReference(user.roles)])
    else if anonymous.None? || !anonymous.value.enabled then
      Ok([NamedRoleReference(user.roles)])
    else if |anonymous.value.user.roles| == 0 then
      Err(IllegalState("anonymous is only enabled when the anonymous user has roles"))
    else
      Ok([NamedRoleReference(user.roles + anonymous.value.user.roles)])
  }

  /** The two-byte text `{}`: a role descriptor payload that defines no role. */
  const EmptyObjectBytes: Bytes := [0x7B, 0x7D]

  /** An absent payload, or one of two bytes that decode to `{}`, holds no role descriptors. */
  function IsEmptyRoleDescriptorsBytes(b: Option<Bytes>): (r: bool)
    ensures r <==> b.None? || b.value == EmptyObjectBytes
    ensures b.Some? && |b.value| != 2 ==> !r
  {
    // A two-byte payload decodes to "{}" exactly when it is those two bytes.
    b.None? || (|b.value| == 2 && b.value == EmptyObjectBytes)
  }

  function BuildRoleReferencesForApiKey(s: Subject): (r: Result<seq<RoleReference>>)
    requires s.Type() == ApiKeyType
    ensures r.Ok? ==> 1 <= |r.value| <= 2 && r.value[|r.value| - 1].IsApiKey(LimitedBy)
    ensures r.Ok? && |r.value| == 2 ==> r.value[0].IsApiKey(Assigned)
  {
    if s.version.Before(ApiKeyRolesAsBytesVersion) then
      BuildRolesReferenceForApiKeyBwc(s)
    else
      var apiKeyId :- AsText(s.metadata.apiKeyId);
      var assignedBytes :- AsBytes(s.metadata.roleDescriptors);
      var limitedBy :- GetLimitedByRoleDescriptorsBytes(s);
      // The Java code rejects a key with neither payload here, but the limited-by
      // payload has already been dereferenced, so that check never fires.
      var limitedByReference := ApiKeyRoleReference(apiKeyId, limitedBy, LimitedBy);
      if IsEmptyRoleDescriptorsBytes(assignedBytes) then
        Ok([limitedByReference])
      else
        Ok([ApiKeyRoleReference(apiKeyId, assignedBytes.value, Assigned), limitedByReference])
  }

  /** The references of an API key authenticated by a node older than the byte encoding. */
  function BuildRolesReferenceForApiKeyBwc(s: Subject): (r: Result<seq<RoleReference>>)
    ensures r.Ok? ==> 1 <= |r.value| <= 2 && r.value[|r.value| - 1].IsApiKey(LimitedBy)
    ensures r.Ok? ==> forall i :: 0 <= i < |r.value| ==> r.value[i].BwcApiKeyRoleReference?
    ensures r.Ok? && |r.value| == 2 ==> r.value[0].IsApiKey(Assigned)
  {
    var apiKeyId :- AsText(s.metadata.apiKeyId);
    var assignedMap :- AsMap(s.metadata.roleDescriptors);
    var limitedBy :- AsMap(s.metadata.limitedByRoleDescriptors);
    if assignedMap.None? && limitedBy.None? then
      Err(SecurityError("no role descriptors found for API key"))
    else
      var limitedByReference := BwcApiKeyRoleReference(apiKeyId, limitedBy, LimitedBy);
      if assignedMap.None? || |assignedMap.value| == 0 then
        Ok([limitedByReference])
      else
        Ok([BwcApiKeyRoleReference(apiKeyId, assignedMap, Assigned), limitedByReference])
  }

  /**
   * The role descriptors of the fleet-server service account as of 7.14, which
   * replace the empty limited-by payload of API keys that account created then.
   * They are fixed and do not follow later changes to the account's role.
   */
  const FleetServerRoleDescriptorBytesV714: Bytes := Ascii(
    "{\"elastic/fleet-server\":{\"cluster\":[\"monitor\",\"manage_own_api_key\"],"
    + "\"indices\":[{\"names\":[\"logs-*\",\"metrics-*\",\"traces-*\",\"synthetics-*\","
    + "\".logs-endpoint.diagnostic.collection-*\"],"
    + "\"privileges\":[\"write\",\"create_index\",\"auto_configure\"],\"allow_restricted_indices\":false},"
    + "{\"names\":[\".fleet-*\"],\"privileges\":[\"read\",\"write\",\"monitor\",\"create_index\",\"auto_configure\"],"
    + "\"allow_restricted_indices\":false}],\"applications\":[],\"run_as\":[],\"metadata\":{},"
    + "\"transient_metadata\":{\"enabled\":true}}}")

  /** True when the legacy fleet-server payload stands in for an empty limited-by payload. */
  predicate IsLegacyFleetServerKey(s: Subject, limitedBy: Bytes) {
    |limitedBy| == 2 && limitedBy == EmptyObjectBytes
    && s.metadata.creatorRealmName == Some(TextValue(ServiceAccountRealmName))
    && s.user.principal == FleetServerPrincipal
  }

  /**
   * The limited-by payload of a byte-encoded API key. It is dereferenced
   * unchecked, so an absent payload is a null dereference; the one legacy
   * fleet-server case is substituted by the fixed 7.14 payload.
   */
  function GetLimitedByRoleDescriptorsBytes(s: Subject): (r: Result<Bytes>)
    ensures s.metadata.limitedByRoleDescriptors.None? ==> r == Err(NullDereference)
    ensures s.metadata.limitedByRoleDescriptors.Some? ==>
              (r.Ok? <==> s.metadata.limitedByRoleDescriptors.value.BytesValue?)
    ensures s.metadata.limitedByRoleDescriptors.Some? && !s.metadata.limitedByRoleDescriptors.value.BytesValue? ==>
              r == Err(WrongMetadataType)
    ensures r.Ok? ==> r.value == s.metadata.limitedByRoleDescriptors.value.bytes || r.value == FleetServerRoleDescriptorBytesV714
  {
    var limitedBy :- AsBytes(s.metadata.limitedByRoleDescriptors);
    if limitedBy.None? then
      Err(NullDereference)
    else if IsLegacyFleetServerKey(s, limitedBy.value) then
      Ok(FleetServerRoleDescriptorBytesV714)
    else
      Ok(limitedBy.value)
  }

  // ---------------------------------------------------------------------------
  // Properties of the derivation
  // ---------------------------------------------------------------------------

  /**
   * A user's single named reference holds the user's own roles, followed by the
   * anonymous user's roles exactly when an enabled anonymous user is configured
   * and the user is not that anonymous user; an enabled anonymous user without
   * roles is an error.
   */
  lemma UserReferences(s: Subject, anonymous: Option<AnonymousUser>)
    requires s.Type() == UserType
    ensures var r := GetRoleReferences(s, anonymous);
            var addsAnonymous := anonymous.Some? && anonymous.value.enabled && s.user != anonymous.value.user;
            && (r.Err? <==> addsAnonymous && |anonymous.value.user.roles| == 0)
            && (r.Err? ==> r.error.IllegalState?)
            && (r.Ok? && !addsAnonymous ==> r.value == [NamedRoleReference(s.user.roles)])
            && (r.Ok? && addsAnonymous ==> r.value == [NamedRoleReference(s.user.roles + anonymous.value.user.roles)])
  {
  }

  /** Anonymous roles are added to a user's roles, never substituted for them. */
  lemma AnonymousRolesAreAdditive(s: Subject, anonymous: AnonymousUser, name: string)
    requires s.Type() == UserType && anonymous.enabled && s.user != anonymous.user
    requires |anonymous.user.roles| > 0
    ensures var r := GetRoleReferences(s, Some(anonymous));
            r.Ok? && (name in r.value[0].roleNames <==> name in s.user.roles || name in anonymous.user.roles)
  {
  }

  /**
   * A byte-encoded API key has a limited-by reference last, preceded by an
   * assigned reference unless the assigned payload is absent or `{}`; a key
   * whose limited-by payload is absent fails with a null dereference.
   */
  lemma ApiKeyByteReferences(s: Subject, anonymous: Option<AnonymousUser>)
    requires s.Type() == ApiKeyType && !s.version.Before(ApiKeyRolesAsBytesVersion)
    requires AsText(s.metadata.apiKeyId).Ok? && AsBytes(s.metadata.roleDescriptors).Ok?
    ensures var r := GetRoleReferences(s, anonymous);
            var id := AsText(s.metadata.apiKeyId).value;
            var assignedBytes := AsBytes(s.metadata.roleDescriptors).value;
            var limitedBy := GetLimitedByRoleDescriptorsBytes(s);
            && (s.metadata.limitedByRoleDescriptors.None? ==> r == Err(NullDereference))
            && (limitedBy.Ok? ==>
                  && r.Ok?
                  && (|r.value| == 1 <==> IsEmptyRoleDescriptorsBytes(assignedBytes))
                  && r.value[|r.value| - 1] == ApiKeyRoleReference(id, limitedBy.value, LimitedBy)
                  && (|r.value| == 2 ==> r.value[0] == ApiKeyRoleReference(id, assignedBytes.value, Assigned)))
  {
  }

  /**
   * An API key from before the byte encoding with neither map is rejected; a
   * missing or empty assigned map gives the limited-by reference alone, and
   * otherwise the assigned reference comes first.
   */
  lemma ApiKeyLegacyReferences(s: Subject, anonymous: Option<AnonymousUser>)
    requires s.Type() == ApiKeyType && s.version.Before(ApiKeyRolesAsBytesVersion)
    requires AsText(s.metadata.apiKeyId).Ok?
    requires AsMap(s.metadata.roleDescriptors).Ok? && AsMap(s.metadata.limitedByRoleDescriptors).Ok?
    ensures var r := GetRoleReferences(s, anonymous);
            var id := AsText(s.metadata.apiKeyId).value;
            var assignedMap := AsMap(s.metadata.roleDescriptors).value;
            var limitedBy := AsMap(s.metadata.limitedByRoleDescriptors).value;
            && (r.Err? <==> assignedMap.None? && limitedBy.None?)
            && (r.Err? ==> r.error.SecurityError?)
            && (r.Ok? ==>
                  && (|r.value| == 1 <==> assignedMap.None? || |assignedMap.value| == 0)
                  && r.value[|r.value| - 1] == BwcApiKeyRoleReference(id, limitedBy, LimitedBy)
                  && (|r.value| == 2 ==> r.value[0] == BwcApiKeyRoleReference(id, assignedMap, Assigned)))
  {
  }

  /** The legacy fleet-server payload is never the empty payload it stands in for. */
  lemma FleetServerPayloadIsNotEmpty()
    ensures FleetServerRoleDescriptorBytesV714 != EmptyObjectBytes
  {
    assert |FleetServerRoleDescriptorBytesV714| > 2;
  }

  /**
   * The limited-by payload is returned unchanged except in the one legacy
   * case: an empty payload of a key created by the fleet-server service account.
   */
  lemma LimitedByPayloadSubstitution(s: Subject, raw: Bytes)
    requires s.metadata.limitedByRoleDescriptors == Some(BytesValue(raw))
    ensures var r := GetLimitedByRoleDescriptorsBytes(s);
            && r.Ok?
            && (r.value != raw <==>
                  raw == EmptyObjectBytes
                  && s.metadata.creatorRealmName == Some(TextValue(ServiceAccountRealmName))
                  && s.user.principal == FleetServerPrincipal)
            && (r.value != raw ==> r.value == FleetServerRoleDescriptorBytesV714)
  {
    FleetServerPayloadIsNotEmpty();
  }
}
