/**
 * The side-effect-free part of the user profile model (core/users/models.py):
 * the derived status, the two checksum field-subset builders, the URI and name
 * strings, the auth-group check and the admin check.
 */
module UserFields {
  import opened Wrappers

  /** Python truthiness of an optional text value: neither `None` nor `""`. */
  predicate Truthy(s: Option<string>)
  {
    s.Some? && s.value != ""
  }

  // ---------------------------------------------------------------------------
  // Status
  // ---------------------------------------------------------------------------

  datatype UserStatus = Deactivated | VerificationPending | Unverified | Verified

  /** The `status` property: an inactive account is deactivated whatever its
      verification state; an active, unverified account is pending exactly when
      its verification token is truthy. */
  function StatusOf(isActive: bool, verified: bool, verificationToken: Option<string>): (s: UserStatus)
    ensures s == Deactivated <==> !isActive
    ensures s == VerificationPending <==> isActive && !verified && Truthy(verificationToken)
    ensures s == Unverified <==> isActive && !verified && !Truthy(verificationToken)
    ensures s == Verified <==> isActive && verified
  {
    if !isActive then Deactivated
    else if !verified then (if Truthy(verificationToken) then VerificationPending else Unverified)
    else Verified
  }

  // ---------------------------------------------------------------------------
  // Checksum field subsets
  // ---------------------------------------------------------------------------

  /** A field value as the checksum builders see it. */
  datatype Value = Null | Text(text: string) | Flag(flag: bool) | Json(entries: map<string, string>)

  /** Attribute names of a profile; `Other` stands for every attribute that no
      checksum subset mentions (`verified`, `password`, ...). */
  datatype Field =
    | FirstName | LastName | Username | Company | Location | Website | PreferredLocale
    | Extras | IsActive | Other(name: string)

  /** A resource handed to the builders: an object's attributes or a plain dict. */
  type Record = map<Field, Value>

  /** `pydash.get(data, key)`: the value under `key`, or `None` when it is missing. */
  function Get(data: Record, key: Field): Value
  {
    if key in data then data[key] else Null
  }

  const StandardChecksumInclusions: seq<Field> :=
    [FirstName, LastName, Username, Company, Location, Website, PreferredLocale, Extras]

  /** The class constant as declared; it lists `website`, which the smart builder leaves out. */
  const SmartChecksumInclusions: seq<Field> :=
    [FirstName, LastName, Username, Company, Location, Website, IsActive]

  /** `get_standard_checksum_fields_for_resource`: the eight standard keys, each
      mapped to the resource's value for it (missing ones to `Null`). */
  function StandardChecksumFields(data: Record): (r: Record)
    ensures r.Keys == {FirstName, LastName, Username, Company, Location, Website, PreferredLocale, Extras}
    ensures forall k :: k in r ==> r[k] == Get(data, k)
  {
    map[
      FirstName := Get(data, FirstName),
      LastName := Get(data, LastName),
      Username := Get(data, Username),
      Company := Get(data, Company),
      Location := Get(data, Location),
      Website := Get(data, Website),
      PreferredLocale := Get(data, PreferredLocale),
      Extras := Get(data, Extras)
    ]
  }

  /** `get_smart_checksum_fields_for_resource`: six keys, `is_active` among them;
      of the declared smart inclusions only `website` is missing. */
  function SmartChecksumFields(data: Record): (r: Record)
    ensures r.Keys == {FirstName, LastName, Username, Company, Location, IsActive}
    ensures forall k :: k in r ==> r[k] == Get(data, k)
  {
    map[
      FirstName := Get(data, FirstName),
      LastName := Get(data, LastName),
      Username := Get(data, Username),
      Company := Get(data, Company),
      Location := Get(data, Location),
      IsActive := Get(data, IsActive)
    ]
  }

  /** The standard builder returns exactly 8 keys. */
  lemma StandardChecksumFieldCount(data: Record)
    ensures |StandardChecksumFields(data)| == 8
  {
  }

  /** The smart builder returns exactly 6 keys. */
  lemma SmartChecksumFieldCount(data: Record)
    ensures |SmartChecksumFields(data)| == 6
  {
  }

  /** The standard builder's keys are exactly the declared standard inclusions. */
  lemma StandardFieldsFollowInclusions(data: Record)
    ensures forall k :: k in StandardChecksumFields(data) <==> k in StandardChecksumInclusions
  {
  }

  /** The smart builder's keys are the declared smart inclusions except
      `website`: the declaration lists `website`, the builder leaves it out. */
  lemma SmartFieldsOmitWebsite(data: Record)
    ensures forall k :: k in SmartChecksumFields(data) <==> k in SmartChecksumInclusions && k != Website
    ensures Website in SmartChecksumInclusions && Website !in SmartChecksumFields(data)
  {
  }

  /** Two resources have the same standard checksum fields exactly when they
      agree on every standard inclusion: no field outside the subset matters and
      every field inside it does. */
  lemma StandardFieldsAgreeIff(d1: Record, d2: Record)
    ensures StandardChecksumFields(d1) == StandardChecksumFields(d2)
        <==> forall k :: k in StandardChecksumInclusions ==> Get(d1, k) == Get(d2, k)
  {
  }

  /** Two resources have the same smart checksum fields exactly when they agree
      on every smart inclusion other than `website`. */
  lemma SmartFieldsAgreeIff(d1: Record, d2: Record)
    ensures SmartChecksumFields(d1) == SmartChecksumFields(d2)
        <==> forall k :: k in SmartChecksumInclusions && k != Website ==> Get(d1, k) == Get(d2, k)
  {
  }

  /** Changing `extras` changes the standard fields (whenever the value really
      changes) and never the smart fields. */
  lemma ExtrasAffectsOnlyStandard(data: Record, v: Value)
    ensures StandardChecksumFields(data[Extras := v]) == StandardChecksumFields(data) <==> Get(data, Extras) == v
    ensures SmartChecksumFields(data[Extras := v]) == SmartChecksumFields(data)
  {
  }

  /** Changing `is_active` changes the smart fields (whenever the value really
      changes) and never the standard fields. */
  lemma IsActiveAffectsOnlySmart(data: Record, v: Value)
    ensures SmartChecksumFields(data[IsActive := v]) == SmartChecksumFields(data) <==> Get(data, IsActive) == v
    ensures StandardChecksumFields(data[IsActive := v]) == StandardChecksumFields(data)
  {
  }

  /** Changing `website` leaves the smart fields as they were, although the
      declared smart inclusions list it. */
  lemma WebsiteDoesNotAffectSmart(data: Record, v: Value)
    ensures SmartChecksumFields(data[Website := v]) == SmartChecksumFields(data)
  {
  }

  // ---------------------------------------------------------------------------
  // URIs and names
  // ---------------------------------------------------------------------------

  /** `mnemonic`: a user is addressed by its username. */
  function Mnemonic(username: string): string
  {
    username
  }

  /** `calculate_uri`: the username framed by `/users/` and `/`. */
  function CalculateUri(username: string): (uri: string)
    ensures |uri| == |username| + 8
    ensures uri[..7] == "/users/" && uri[7..|uri| - 1] == username && uri[|uri| - 1] == '/'
  {
    "/users/" + username + "/"
  }

  /** Distinct usernames give distinct URIs. */
  lemma CalculateUriInjective(a: string, b: string)
    ensures CalculateUri(a) == CalculateUri(b) ==> a == b
  {
  }

  /** `organizations_url`: the user's own URI followed by `orgs/`. */
  function OrganizationsUrl(username: string): (url: string)
    ensures url == CalculateUri(username) + "orgs/"
    ensures |url| == |username| + 13
  {
    "/users/" + Mnemonic(username) + "/orgs/"
  }

  /** `name`: first and last name joined by one space. */
  function Name(firstName: string, lastName: string): (n: string)
    ensures |n| == |firstName| + 1 + |lastName|
    ensures n[..|firstName|] == firstName && n[|firstName|] == ' ' && n[|firstName| + 1..] == lastName
  {
    firstName + " " + lastName
  }

  /** The `Authorization` header built from a token key. */
  function AuthHeaders(key: string): (h: map<string, string>)
    ensures h.Keys == {"Authorization"}
    ensures |h["Authorization"]| == 6 + |key|
    ensures h["Authorization"][..6] == "Token " && h["Authorization"][6..] == key
  {
    map["Authorization" := "Token " + key]
  }

  // ---------------------------------------------------------------------------
  // Authorisation predicates
  // ---------------------------------------------------------------------------

  /** `is_valid_auth_group(*names)`: every name is one of the configured auth
      groups; vacuously true for no names. */
  function IsValidAuthGroup(names: seq<string>, authGroups: set<string>): (ok: bool)
    ensures ok <==> forall i :: 0 <= i < |names| ==> names[i] in authGroups
  {
    if names == [] then true
    else names[0] in authGroups && IsValidAuthGroup(names[1..], authGroups)
  }

  /** `is_admin_for`: the container's parent is the user itself, or an
      organization the user is a member of; a container without a parent has
      no admin. */
  function IsAdminFor(userId: nat, parentId: Option<nat>, memberOf: set<nat>): (admin: bool)
    ensures parentId == None ==> !admin
    ensures parentId == Some(userId) ==> admin
    ensures parentId.Some? && parentId.value in memberOf ==> admin
    ensures admin ==> parentId.Some? && (parentId.value == userId || parentId.value in memberOf)
  {
    match parentId
    case None => false
    case Some(p) => p == userId || p in memberOf
  }

  /** The owner of a concept container: a user or an organization. User ids
      and organization ids are numbered independently, so the same number can
      name one of each. */
  datatype Owner = UserOwner(userId: nat) | OrgOwner(orgId: nat)

  /** The container's `parent_id`: its owner's id, whichever kind of owner it is. */
  function ParentId(owner: Option<Owner>): Option<nat>
  {
    match owner
    case None => None
    case Some(UserOwner(u)) => Some(u)
    case Some(OrgOwner(o)) => Some(o)
  }

  /** `is_admin_for` as written compares the bare parent id with the user's id
      and with the user's organization ids: a container owned by organization 7
      counts as administered by user 7 even when user 7 is not a member, while
      telling the two kinds of owner apart gives no admin right. */
  lemma IsAdminForConfusesOwnerKinds()
    ensures IsAdminFor(7, ParentId(Some(OrgOwner(7))), {})
    ensures !IsAdminForOwner(7, Some(OrgOwner(7)), {})
  {
  }

  /** `is_admin_for` as evidently intended: the user owns the container, or the
      container's owning organization is one the user belongs to. */
  function IsAdminForOwner(userId: nat, owner: Option<Owner>, memberOf: set<nat>): (admin: bool)
    ensures admin <==> owner == Some(UserOwner(userId)) || (exists o :: owner == Some(OrgOwner(o)) && o in memberOf)
  {
    match owner
    case None => false
    case Some(UserOwner(u)) => u == userId
    case Some(OrgOwner(o)) => o in memberOf
  }

  /** Where no user id and organization id collide, the check as written and
      the intended one agree. */
  lemma IsAdminForAgreesWithoutIdCollision(userId: nat, owner: Option<Owner>, memberOf: set<nat>)
    requires owner.Some? && owner.value.UserOwner? ==> owner.value.userId !in memberOf || owner.value.userId == userId
    requires owner.Some? && owner.value.OrgOwner? ==> owner.value.orgId != userId
    ensures IsAdminFor(userId, ParentId(owner), memberOf) == IsAdminForOwner(userId, owner, memberOf)
  {
  }
}
