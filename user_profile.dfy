/**
 * The stateful part of the user profile model (core/users/models.py): the
 * account's lifecycle fields, updated in place by the transition methods, and
 * the shared auth-token table they create and delete rows in.
 */
module Users {
  import opened Wrappers
  import opened UserFields

  type UserId = nat
  type Key = string
  type Timestamp = int

  /** The auth-token table (`Token.objects`): for each user, the keys of its
      token rows. */
  class TokenStore {
    var tokens: map<UserId, seq<Key>>

    /** At most one token per user (the table's one-to-one link to users), and
        a key belongs to one user only (it is the table's primary key). */
    ghost predicate Valid()
      reads this
    {
      (forall u :: u in tokens ==> |tokens[u]| <= 1) &&
      (forall u, v, k :: u in tokens && v in tokens && k in tokens[u] && k in tokens[v] ==> u == v)
    }

    /** The keys held by user `u`, in row order. */
    function KeysOf(u: UserId): seq<Key>
      reads this
    {
      if u in tokens then tokens[u] else []
    }

    /** Some user holds key `k`: presenting `k` authenticates. */
    ghost predicate InUse(k: Key)
      reads this
    {
      exists u :: u in tokens && k in tokens[u]
    }

    /** A user other than `u` holds key `k`. */
    predicate HeldByAnother(u: UserId, k: Key)
      reads this
    {
      exists v :: v in tokens && v != u && k in tokens[v]
    }

    constructor ()
      ensures Valid() && tokens == map[]
    {
      tokens := map[];
    }
  }

  class UserProfile {
    const id: UserId
    var username: string
    var firstName: string
    var lastName: string
    var company: Option<string>
    var location: Option<string>
    var preferredLocale: Option<string>
    var website: Option<string>
    var extras: map<string, string>
    /** The stored credential handle (a hash); the plaintext is never kept. */
    var password: string
    var isActive: bool
    var verified: bool
    var verificationToken: Option<string>
    var deactivatedAt: Option<Timestamp>
    /** The key `verify` last obtained (`self.token`). */
    var token: Option<Key>
    /** The attributes the stored checksums were last computed from: the
        standard checksum digests `StandardChecksumFields(checksumSource)` and
        the smart one `SmartChecksumFields(checksumSource)`. */
    var checksumSource: Record

    /** The attributes the checksum builders read. */
    function Fields(): Record
      reads this`firstName, this`lastName, this`username, this`company, this`location
      reads this`website, this`preferredLocale, this`extras, this`isActive
    {
      map[
        FirstName := Text(firstName),
        LastName := Text(lastName),
        Username := Text(username),
        Company := OptionalText(company),
        Location := OptionalText(location),
        Website := OptionalText(website),
        PreferredLocale := OptionalText(preferredLocale),
        Extras := Json(extras),
        IsActive := Flag(isActive)
      ]
    }

    function Status(): UserStatus
      reads this`isActive, this`verified, this`verificationToken
    {
      StatusOf(isActive, verified, verificationToken)
    }

    /** A verification token is only kept while the account is unverified. */
    ghost predicate TokenOnlyWhileUnverified()
      reads this`verified, this`verificationToken
    {
      verificationToken.Some? ==> !verified
    }

    /** A deactivation time is only kept while the account is inactive. The
        transitions keep this, except `verify`, which reactivates without
        clearing it. */
    ghost predicate DeactivationTimeOnlyWhileInactive()
      reads this`isActive, this`deactivatedAt
    {
      deactivatedAt.Some? ==> !isActive
    }

    /** A new profile with the model's field defaults: active, verified, no
        verification token, never deactivated, no token obtained. */
    constructor (id: UserId, username: string, password: string)
      ensures this.id == id && this.username == username && this.password == password
      ensures firstName == "" && lastName == "" && extras == map[]
      ensures company == None && location == None && preferredLocale == None && website == None
      ensures isActive && verified && verificationToken == None && deactivatedAt == None && token == None
      ensures Status() == Verified && TokenOnlyWhileUnverified() && DeactivationTimeOnlyWhileInactive()
    {
      this.id := id;
      this.username := username;
      this.password := password;
      firstName, lastName := "", "";
      company, location, preferredLocale, website := None, None, None, None;
      extras := map[];
      isActive, verified := true, true;
      verificationToken, deactivatedAt := None, None;
      token := None;
      checksumSource := map[];
    }

    /** The stored checksums were computed from the current attributes. */
    ghost predicate ChecksumsCurrent()
      reads this
    {
      checksumSource == Fields()
    }

    /** The field subset the stored standard checksum is a digest of. */
    ghost function StandardChecksumBasis(): Record
      reads this`checksumSource
    {
      StandardChecksumFields(checksumSource)
    }

    /** The field subset the stored smart checksum is a digest of. */
    ghost function SmartChecksumBasis(): Record
      reads this`checksumSource
    {
      SmartChecksumFields(checksumSource)
    }

    /** `set_checksums`: recompute both stored checksums from the current
        fields, so that their bases are the standard and smart fields of the
        current attributes. */
    method SetChecksums()
      modifies this`checksumSource
      ensures ChecksumsCurrent()
      ensures StandardChecksumBasis() == StandardChecksumFields(Fields())
      ensures SmartChecksumBasis() == SmartChecksumFields(Fields())
    {
      checksumSource := Fields();
    }

    // -------------------------------------------------------------------------
    // Token rows
    // -------------------------------------------------------------------------

    /** `__delete_token`: remove every token row of this user. */
    method DeleteToken(store: TokenStore)
      requires store.Valid()
      modifies store
      ensures store.Valid()
      ensures store.tokens == old(store.tokens) - {id}
      ensures store.KeysOf(id) == []
    {
      store.tokens := store.tokens - {id};
    }

    /** `__create_token`: add a row with the newly generated key `key`. The
        callers only create a row for a user that has none. */
    method CreateToken(store: TokenStore, key: Key) returns (created: Key)
      requires store.Valid() && store.KeysOf(id) == [] && !store.InUse(key)
      modifies store
      ensures store.Valid()
      ensures created == key && store.tokens == old(store.tokens)[id := [key]]
    {
      store.tokens := store.tokens[id := [key]];
      created := key;
    }

    /** `refresh_token`: revoke this user's token and issue one with the newly
        generated key; afterwards the user holds exactly that key, no key it
        held before still authenticates, and other users keep theirs. */
    method RefreshToken(store: TokenStore, freshKey: Key)
      requires store.Valid() && !store.InUse(freshKey)
      modifies store
      ensures store.Valid()
      ensures store.tokens == old(store.tokens)[id := [freshKey]]
      ensures store.KeysOf(id) == [freshKey]
      ensures forall k :: k in old(store.KeysOf(id)) ==> !store.InUse(k)
    {
      ghost var before := store.tokens;
      DeleteToken(store);
      var _ := CreateToken(store, freshKey);
      forall k | k in (if id in before then before[id] else [])
        ensures !store.InUse(k)
      {
        assert id in before && k in before[id];
      }
    }

    /** `get_token`: the user's first key when it has one, leaving the table as
        it was; otherwise a row with the newly generated key is created. Either
        way the user then holds exactly the returned key, so a second call
        returns the same key. */
    method GetToken(store: TokenStore, freshKey: Key) returns (key: Key)
      requires store.Valid() && !store.InUse(freshKey)
      modifies store
      ensures store.Valid()
      ensures old(store.KeysOf(id)) != [] ==> key == old(store.KeysOf(id))[0] && store.tokens == old(store.tokens)
      ensures old(store.KeysOf(id)) == [] ==> key == freshKey && store.tokens == old(store.tokens)[id := [freshKey]]
      ensures store.KeysOf(id) == [key]
    {
      var keys := store.KeysOf(id);
      if keys != [] {
        key := keys[0];
      } else {
        key := CreateToken(store, freshKey);
      }
    }

    /** `set_token`: delete this user's token rows, then insert a row with key
        `key`, or with the generated key `freshKey` when `key` is empty (the
        token model generates a key whenever none is given). The insert fails,
        after the rows were already deleted, when the key is longer than the
        key column allows or belongs to another user (it is the table's primary
        key); `stored` tells whether it succeeded. */
    method SetToken(store: TokenStore, key: Key, freshKey: Key) returns (stored: bool)
      requires store.Valid()
      requires !store.InUse(freshKey) && |freshKey| == KeyMaxLength
      modifies store
      ensures store.Valid()
      ensures stored <==> |StoredKey(key, freshKey)| <= KeyMaxLength && !old(store.HeldByAnother(id, StoredKey(key, freshKey)))
      ensures stored ==> store.tokens == old(store.tokens)[id := [StoredKey(key, freshKey)]]
      ensures !stored ==> store.tokens == old(store.tokens) - {id} && store.KeysOf(id) == []
    {
      var k := StoredKey(key, freshKey);
      ghost var before := store.tokens;
      DeleteToken(store);
      if v :| v in before && v != id && k in before[v] {
        assert v in store.tokens && store.tokens[v] == before[v];
      }
      stored := |k| <= KeyMaxLength && !store.HeldByAnother(id, k);
      if stored {
        var _ := CreateToken(store, k);
      }
    }

    /** `auth_headers`: the `Authorization` header carrying the key `get_token`
        returns. */
    method AuthHeaderFor(store: TokenStore, freshKey: Key) returns (headers: map<string, string>)
      requires store.Valid() && !store.InUse(freshKey)
      modifies store
      ensures store.Valid()
      ensures old(store.KeysOf(id)) != [] ==> store.tokens == old(store.tokens)
      ensures old(store.KeysOf(id)) == [] ==> store.tokens == old(store.tokens)[id := [freshKey]]
      ensures |store.KeysOf(id)| == 1 && headers == AuthHeaders(store.KeysOf(id)[0])
    {
      var key := GetToken(store, freshKey);
      headers := AuthHeaders(key);
    }

    // -------------------------------------------------------------------------
    // Lifecycle transitions
    // -------------------------------------------------------------------------

    /** `update_password`. With neither argument truthy nothing happens. A
        truthy plaintext takes precedence over a hashed value; when the policy
        `validate` rejects it (non-empty messages) its messages are returned
        and nothing changes. Otherwise the credential is set (`hash` of the
        plaintext, or the hashed value as given), a truthy verification token is
        cleared and the user's token is rotated to `freshKey`. */
    method UpdatePassword(store: TokenStore, plaintext: Option<string>, hashed: Option<string>,
                          validate: string -> seq<string>, hash: string -> string, freshKey: Key)
      returns (errors: Option<seq<string>>)
      requires store.Valid() && !store.InUse(freshKey)
      modifies this`password, this`verificationToken, store
      ensures store.Valid()
      ensures !Truthy(plaintext) && !Truthy(hashed) ==>
        errors == None && unchanged(this) && store.tokens == old(store.tokens)
      ensures Truthy(plaintext) && validate(plaintext.value) != [] ==>
        errors == Some(validate(plaintext.value)) && unchanged(this) && store.tokens == old(store.tokens)
      ensures (Truthy(plaintext) && validate(plaintext.value) == []) || (!Truthy(plaintext) && Truthy(hashed)) ==>
        && errors == None
        && password == (if Truthy(plaintext) then hash(plaintext.value) else hashed.value)
        && verificationToken == (if Truthy(old(verificationToken)) then None else old(verificationToken))
        && store.tokens == old(store.tokens)[id := [freshKey]]
      ensures old(TokenOnlyWhileUnverified()) ==> TokenOnlyWhileUnverified()
      ensures old(DeactivationTimeOnlyWhileInactive()) ==> DeactivationTimeOnlyWhileInactive()
    {
      if !Truthy(plaintext) && !Truthy(hashed) {
        return None;
      }
      if Truthy(plaintext) {
        var messages := validate(plaintext.value);
        if messages != [] {
          return Some(messages);
        }
        password := hash(plaintext.value);
      } else {
        password := hashed.value;
      }
      if Truthy(verificationToken) {
        verificationToken := None;
      }
      RefreshToken(store, freshKey);
      errors := None;
    }

    /** `mark_verified`. An already verified user stays as it is and gets
        `true`. Otherwise a `token` equal to the stored verification token, or
        `force`, verifies the user (clearing the verification token and the
        deactivation time) and gives `true`; anything else gives `false` and
        changes nothing. The active flag is never touched, so a deactivated user
        stays deactivated. */
    method MarkVerified(token: Option<string>, force: bool) returns (ok: bool)
      modifies this`verified, this`verificationToken, this`deactivatedAt
      ensures old(verified) ==> ok && unchanged(this)
      ensures !old(verified) && (token == old(verificationToken) || force) ==>
        ok && verified && verificationToken == None && deactivatedAt == None
      ensures !old(verified) && !(token == old(verificationToken) || force) ==>
        !ok && unchanged(this)
      ensures !isActive ==> Status() == Deactivated
      ensures ok ==> verified
      ensures old(TokenOnlyWhileUnverified()) ==> TokenOnlyWhileUnverified()
      ensures old(DeactivationTimeOnlyWhileInactive()) ==> DeactivationTimeOnlyWhileInactive()
    {
      if verified {
        return true;
      }
      if token == verificationToken || force {
        verified := true;
        verificationToken := None;
        deactivatedAt := None;
        return true;
      }
      return false;
    }

    /** `deactivate`: inactive, unverified, no verification token, deactivated
        at `now`, every token of the user revoked, checksums recomputed. The
        flags it leaves do not depend on the previous state, so a second call
        leaves the same flags. */
    method Deactivate(store: TokenStore, now: Timestamp)
      requires store.Valid()
      modifies this`isActive, this`verified, this`verificationToken, this`deactivatedAt
      modifies this`checksumSource, store
      ensures store.Valid()
      ensures !isActive && !verified && verificationToken == None && deactivatedAt == Some(now)
      ensures store.tokens == old(store.tokens) - {id} && store.KeysOf(id) == []
      ensures Status() == Deactivated && TokenOnlyWhileUnverified() && DeactivationTimeOnlyWhileInactive()
      ensures ChecksumsCurrent()
    {
      isActive := false;
      verified := false;
      verificationToken := None;
      deactivatedAt := Some(now);
      DeleteToken(store);
      SetChecksums();
    }

    /** `soft_delete`: the same as `deactivate`. */
    method SoftDelete(store: TokenStore, now: Timestamp)
      requires store.Valid()
      modifies this`isActive, this`verified, this`verificationToken, this`deactivatedAt
      modifies this`checksumSource, store
      ensures store.Valid()
      ensures !isActive && !verified && verificationToken == None && deactivatedAt == Some(now)
      ensures store.tokens == old(store.tokens) - {id} && store.KeysOf(id) == []
      ensures Status() == Deactivated && TokenOnlyWhileUnverified() && DeactivationTimeOnlyWhileInactive()
      ensures ChecksumsCurrent()
    {
      Deactivate(store, now);
    }

    /** `verify`: active, unverified, with the new verification token
        `newVerificationToken` (the text of a fresh UUID, never empty), so the
        status is pending; then the user's key is obtained as by `get_token`
        (an existing key is kept) and remembered. The deactivation time is left
        as it was. */
    method Verify(store: TokenStore, newVerificationToken: string, freshKey: Key)
      requires newVerificationToken != ""
      requires store.Valid() && !store.InUse(freshKey)
      modifies this`isActive, this`verified, this`verificationToken, this`token, store
      ensures store.Valid()
      ensures isActive && !verified && verificationToken == Some(newVerificationToken)
      ensures Status() == VerificationPending && TokenOnlyWhileUnverified()
      ensures token.Some? && store.KeysOf(id) == [token.value]
      ensures old(store.KeysOf(id)) != [] ==> store.tokens == old(store.tokens)
      ensures old(store.KeysOf(id)) == [] ==> store.tokens == old(store.tokens)[id := [freshKey]]
      ensures deactivatedAt == old(deactivatedAt)
    {
      isActive := true;
      verified := false;
      verificationToken := Some(newVerificationToken);
      var key := GetToken(store, freshKey);
      token := Some(key);
    }

    /** `undelete`: verified, no verification token, not deactivated, active,
        checksums recomputed. No token is created or restored: the token table
        is not touched. */
    method Undelete()
      modifies this`isActive, this`verified, this`verificationToken, this`deactivatedAt
      modifies this`checksumSource
      ensures isActive && verified && verificationToken == None && deactivatedAt == None
      ensures Status() == Verified && TokenOnlyWhileUnverified() && DeactivationTimeOnlyWhileInactive()
      ensures ChecksumsCurrent()
    {
      verified := true;
      verificationToken := None;
      deactivatedAt := None;
      isActive := true;
      SetChecksums();
    }
  }

  /** The length of the token key column; generated keys (20 random bytes in
      hex) have exactly this length. */
  const KeyMaxLength := 40

  /** The key a new token row gets: the given one, or the generated one when
      the given key is empty. */
  function StoredKey(key: Key, freshKey: Key): Key
  {
    if key == "" then freshKey else key
  }

  // ---------------------------------------------------------------------------
  // Sequences of calls, proved from the contracts above
  // ---------------------------------------------------------------------------

  /** Two `get_token` calls in a row return the same key, and the second
      leaves the table as the first left it. */
  method GetTokenTwice(user: UserProfile, store: TokenStore, freshKey1: Key, freshKey2: Key)
    returns (first: Key, second: Key)
    requires store.Valid() && !store.InUse(freshKey1) && !store.InUse(freshKey2) && freshKey1 != freshKey2
    modifies store
    ensures first == second && store.KeysOf(user.id) == [first]
  {
    first := user.GetToken(store, freshKey1);
    second := user.GetToken(store, freshKey2);
  }

  /** Two rotations give two distinct keys, and the first no longer
      authenticates. */
  method RefreshTokenTwice(user: UserProfile, store: TokenStore, freshKey1: Key, freshKey2: Key)
    requires store.Valid() && !store.InUse(freshKey1) && !store.InUse(freshKey2) && freshKey1 != freshKey2
    modifies store
    ensures store.Valid() && store.KeysOf(user.id) == [freshKey2] && !store.InUse(freshKey1)
  {
    user.RefreshToken(store, freshKey1);
    user.RefreshToken(store, freshKey2);
  }

  /** `deactivate` then `undelete` restores an active, verified account with
      no verification token and no deactivation time, but the user holds no
      token until one is obtained again. */
  method DeactivateThenUndelete(user: UserProfile, store: TokenStore, now: Timestamp)
    requires store.Valid()
    modifies user, store
    ensures user.isActive && user.verified && user.verificationToken == None && user.deactivatedAt == None
    ensures user.Status() == Verified && store.KeysOf(user.id) == []
  {
    user.Deactivate(store, now);
    user.Undelete();
  }

  /** A second `deactivate` leaves the same flags as the first; only the
      deactivation time follows the later clock reading. */
  method DeactivateTwice(user: UserProfile, store: TokenStore, now1: Timestamp, now2: Timestamp)
    returns (afterFirst: (bool, bool, Option<string>), afterSecond: (bool, bool, Option<string>))
    requires store.Valid()
    modifies user, store
    ensures afterFirst == afterSecond && user.deactivatedAt == Some(now2) && store.KeysOf(user.id) == []
  {
    user.Deactivate(store, now1);
    afterFirst := (user.isActive, user.verified, user.verificationToken);
    user.Deactivate(store, now2);
    afterSecond := (user.isActive, user.verified, user.verificationToken);
  }

  /** Verifying with the right token succeeds, and so does calling again with
      the same token. */
  method MarkVerifiedTwice(user: UserProfile, token: Option<string>) returns (first: bool, second: bool)
    requires !user.verified && token == user.verificationToken
    modifies user
    ensures first && second && user.verified && user.verificationToken == None
  {
    first := user.MarkVerified(token, false);
    second := user.MarkVerified(token, false);
  }

  /** How the profile presents an optional text attribute to the builders. */
  function OptionalText(s: Option<string>): Value
  {
    match s
    case None => Null
    case Some(t) => Text(t)
  }
}
