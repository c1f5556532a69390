# User account lifecycle — a verified Dafny model

This project models the account lifecycle of `UserProfile` in
`core/users/models.py`: the user model of a terminology-repository web
platform, layered on the web framework's own user entity.

- `wrappers.dfy` (module `Wrappers`): `Option`, standing for Python's
  value-or-`None`.
- `user_fields.dfy` (module `UserFields`): the parts that only compute.
  - the derived `status` (`StatusOf`);
  - the two checksum field-subset builders, over a record of attributes;
  - the URI, name and `Authorization` header strings;
  - `is_valid_auth_group` and `is_admin_for`.
- `user_profile.dfy` (module `Users`): the parts that change state in place.
  - `TokenStore`, the shared auth-token table (`Token.objects`), as a map from
    user id to the keys of that user's token rows. Its invariant `Valid()`
    says that a user has at most one key and that a key belongs to one user.
  - `UserProfile`, whose methods update the account fields: `is_active`,
    `verified`, `verification_token`, `deactivated_at` and the password.
    They also create and delete rows of the token table.

Values that come from outside become parameters:

- new token keys (`freshKey`, required not to be in use; `SetToken` also
  requires the 40 characters a generated key has);
- the text of `uuid4()` (`newVerificationToken`, non-empty);
- `datetime.now()` (`now`);
- the password policy (`validate`, returning the rejection messages, empty when
  accepted);
- the password hasher (`hash`);
- the organizations a user belongs to (`memberOf`);
- the configured auth groups (`authGroups`). `core/users/constants.py` is not
  part of this model.

Python truthiness is modelled explicitly by `Truthy`: `None` and `""` are both
false. This matters in three places:

- `status`: an empty verification token reads as "unverified", not "pending";
- the guard of `update_password`;
- its `if self.verification_token` before clearing the token.

`mark_verified` compares the supplied token with the stored one as optional
values, as Python does. So `None` matches an absent token.

## Behaviour of the source worth knowing

- `verify` calls `get_token`, so it keeps an existing key rather than issuing
  a new one.
- `verify` does not clear `deactivated_at`. So the invariant
  `DeactivationTimeOnlyWhileInactive`, which every other transition keeps, is
  not preserved by `Verify` (its contract says `deactivatedAt` is unchanged
  while `isActive` becomes true).
- `update_password` accepts both arguments at once; a truthy plaintext wins
  over a hashed value.
- `set_token` with an empty key stores a generated key instead, because the
  token model generates one whenever no key is given. The insert runs after
  the user's rows were deleted, so when it fails (a key longer than the
  40-character key column, or a key another user holds) the user is left with
  no token.
- `SMART_CHECKSUM_INCLUSIONS` (line 59) lists `website`, but the smart builder
  (lines 81-89) omits it. The model follows the builder. `SmartFieldsOmitWebsite`
  and `WebsiteDoesNotAffectSmart` state the mismatch.
- `is_admin_for` compares the container's bare parent id with both the user's
  id and the user's organization ids (see "## Findings").

Sequences of calls are proved as small client methods in module `Users`:

- `DeactivateTwice`: a second `Deactivate` leaves the same flags.
- `DeactivateThenUndelete`: the account is active and verified again, but the
  user holds no key until one is obtained again.
- `GetTokenTwice`: two `GetToken` calls return the same key.
- `RefreshTokenTwice`: two rotations give two distinct keys, and the first no
  longer authenticates.
- `MarkVerifiedTwice`: verifying with the right token succeeds, and a second
  call with the same token succeeds too.

## Model

| member | source | states |
|---|---|---|
| `UserFields.StatusOf` | core/users/models.py:99-106 | exactly one of four statuses; deactivated iff inactive (whatever `verified` holds); pending iff active, unverified and the verification token is truthy; unverified iff active, unverified, token not truthy; verified iff active and verified |
| `UserFields.StandardChecksumFields` | core/users/models.py:67-78 | the keys are the eight standard fields (`extras` among them, `is_active` not); each maps to the resource's value, `None` when missing |
| `UserFields.SmartChecksumFields` | core/users/models.py:80-89 | the keys are six fields (`is_active` among them, `extras` and `website` not); each maps to the resource's value, `None` when missing |
| `UserFields.StandardChecksumFieldCount` | core/users/models.py:67-78 | the standard builder returns exactly 8 keys |
| `UserFields.SmartChecksumFieldCount` | core/users/models.py:80-89 | the smart builder returns exactly 6 keys |
| `UserFields.StandardFieldsFollowInclusions` | core/users/models.py:56-78 | the standard builder's keys are exactly `STANDARD_CHECKSUM_INCLUSIONS` |
| `UserFields.SmartFieldsOmitWebsite` | core/users/models.py:58-89 | the smart builder's keys are `SMART_CHECKSUM_INCLUSIONS` minus `website`, which the constant lists and the builder lacks |
| `UserFields.StandardFieldsAgreeIff` | core/users/models.py:67-78 | two resources give equal standard fields iff they agree on every standard inclusion |
| `UserFields.SmartFieldsAgreeIff` | core/users/models.py:80-89 | two resources give equal smart fields iff they agree on every smart inclusion other than `website` |
| `UserFields.ExtrasAffectsOnlyStandard` | core/users/models.py:67-89 | changing `extras` changes the standard fields iff the value differs, and never the smart fields |
| `UserFields.IsActiveAffectsOnlySmart` | core/users/models.py:67-89 | changing `is_active` changes the smart fields iff the value differs, and never the standard fields |
| `UserFields.WebsiteDoesNotAffectSmart` | core/users/models.py:80-89 | changing `website` never changes the smart fields |
| `UserFields.CalculateUri` | core/users/models.py:91-92 | the URI is `/users/`, then the username, then `/` |
| `UserFields.CalculateUriInjective` | core/users/models.py:91-92 | distinct usernames give distinct URIs |
| `UserFields.OrganizationsUrl` | core/users/models.py:128-130 | the organizations URL is the user's URI followed by `orgs/` |
| `UserFields.Name` | core/users/models.py:112-114 | the name is the first name, one space, then the last name |
| `UserFields.AuthHeaders` | core/users/models.py:216-218 | a single `Authorization` header whose value is `Token ` followed by the key |
| `UserFields.IsValidAuthGroup` | core/users/models.py:208-210 | true iff every given name is a configured auth group; true for no names |
| `UserFields.IsAdminFor` | core/users/models.py:163-165 | true iff the container has a parent whose bare id is the user's own id or an organization the user belongs to (as written) |
| `UserFields.IsAdminForConfusesOwnerKinds` | core/users/models.py:163-165 | a container owned by organization 7 counts as administered by user 7, who is not a member; the intended check denies it |
| `UserFields.IsAdminForOwner` | core/users/models.py:163-165 | true iff the user owns the container or belongs to the organization that owns it (as intended) |
| `UserFields.IsAdminForAgreesWithoutIdCollision` | core/users/models.py:163-165 | the check as written and the intended one agree whenever the owner's id does not also name the user or one of its organizations |
| `Users.UserProfile.constructor` | core/users/models.py:30-39 | a new profile is active and verified, with no verification token, no deactivation time and empty profile attributes |
| `Users.UserProfile.SetChecksums` | core/users/models.py:227 | the stored checksums are recomputed from the current attributes: their bases become the standard and smart fields of those attributes |
| `Users.UserProfile.DeleteToken` | core/users/models.py:170-171 | every token row of this user is removed; other users' rows are kept |
| `Users.UserProfile.CreateToken` | core/users/models.py:167-168 | a row with the new key is added for this user, who had none |
| `Users.UserProfile.RefreshToken` | core/users/models.py:151-153 | the user then holds exactly the new key; no key it held before is in use; other users' keys are unchanged |
| `Users.UserProfile.GetToken` | core/users/models.py:155-157 | an existing first key is returned with the table unchanged; otherwise the new key is created and returned; the user then holds exactly the returned key |
| `Users.UserProfile.SetToken` | core/users/models.py:159-161 | the user's rows are deleted; then the given key, or the generated one for an empty key, becomes the user's only key exactly when it fits the 40-character column and no other user holds it; other users' keys are unchanged |
| `Users.UserProfile.AuthHeaderFor` | core/users/models.py:216-218 | the header carries the user's only key, obtained as by `get_token` |
| `Users.UserProfile.UpdatePassword` | core/users/models.py:132-149 | no truthy argument: returns `None`, nothing changes; a rejected plaintext: returns the messages, password, verification token and tokens unchanged; otherwise the credential is set (plaintext first), a truthy verification token is cleared and the user holds exactly one new key |
| `Users.UserProfile.MarkVerified` | core/users/models.py:195-206 | already verified: `true`, nothing changes; matching token or `force`: `true`, verified, token and deactivation time cleared; otherwise `false`, nothing changes; `is_active` is never touched |
| `Users.UserProfile.Deactivate` | core/users/models.py:220-227 | inactive, unverified, no verification token, deactivated at `now`, all of the user's tokens removed, status deactivated, checksums recomputed |
| `Users.UserProfile.SoftDelete` | core/users/models.py:238-239 | the same end state as `Deactivate` |
| `Users.UserProfile.Verify` | core/users/models.py:229-236 | active, unverified, the new verification token set, status pending; the user holds exactly the obtained key, which is remembered; the deactivation time is unchanged |
| `Users.GetTokenTwice` | core/users/models.py:155-157 | two `get_token` calls in a row return the same key |
| `Users.RefreshTokenTwice` | core/users/models.py:151-153 | after two rotations the user holds only the second key and the first is in use by nobody |
| `Users.DeactivateThenUndelete` | core/users/models.py:220-247 | active, verified, no verification token or deactivation time, status verified, and no token held |
| `Users.DeactivateTwice` | core/users/models.py:220-227 | the flags after a second deactivation equal those after the first |
| `Users.MarkVerifiedTwice` | core/users/models.py:195-206 | with the right token both calls return true and the user ends verified without a verification token |
| `Users.UserProfile.Undelete` | core/users/models.py:241-247 | verified, active, no verification token, no deactivation time, status verified, checksums recomputed; the token table is not touched |

## Left out

- Persistence (`save()`) is left out: the model's fields are the saved state.
- The ORM queries in `orgs_count`, `owned_orgs_count` and `auth_groups` are left out. The membership lookup of `is_admin_for` becomes the input set `memberOf`.
- The asynchronous email tasks are left out: `send_verification_email`, `send_reset_password_email`, `email_verification_url`, `reset_password_url` and `web_url()`. They are I/O dispatched to a task queue.
- The checksum digest itself (`core.common.checksums`) is not part of this model. `SetChecksums` records the attributes the digests are computed from; `StandardChecksumBasis` and `SmartChecksumBasis` give the field subsets each digest covers.
- `validate_password` and `set_password`, the password policy and hashing, are external collaborators. They become the parameters `validate` and `hash`.
- Randomness and the clock are left out: DRF token-key generation, `uuid.uuid4()` and `datetime.now()` become parameters.
- The search-index configuration is left out: `es_fields` and `get_search_document`.
- The trivial aliases `user`, `mnemonic`, `full_name` and `get_url_kwarg` have no contract of their own. They return the username, the username, the name and a constant; `Mnemonic` exists only as the username that `OrganizationsUrl` is built from.
- The instance wrappers `get_standard_checksum_fields` and `get_smart_checksum_fields` are not separate members. `SetChecksums` applies the builders to `Fields()`.
- `core/users/urls.py` is left out. It is a declarative URL table with no logic.
- Concurrency is left out. In particular, two concurrent token rotations racing to leave two keys is outside a sequential model.
- `Users.UserProfile.SetToken`: a failed insert is reported by `stored == false`; the database error it raises, and any rollback of the preceding delete by an enclosing transaction, are not modelled. The 40-character limit is the one a database enforcing column lengths applies.

## Findings

| source | as written | input that shows it | evidently intended | confidence | as-written member | corrected member |
|---|---|---|---|---|---|---|
| core/users/models.py:163-165 | `parent_id == self.id or self.organizations.filter(id=parent_id).exists()` compares one bare id with a user id and with organization ids | user 7, not a member of any organization; a container owned by organization 7 | a user administers a container it owns, or one owned by an organization it belongs to | low: depends on `parent_id` returning the owner's bare id, which is defined outside this model; not executed | `UserFields.IsAdminForConfusesOwnerKinds` | `UserFields.IsAdminForOwner` |
