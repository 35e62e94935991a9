# invenio-cern-sync, modelled in Dafny

This project models the record-to-record core of invenio-cern-sync. That package keeps the local accounts and groups of an Invenio instance in line with CERN's directory (LDAP) and CERN's Authorization Service. The model covers:

- **Record normalisation.** It reads directory attributes with `first_or_raise` and `first_or_default`. It compares dictionaries with `_is_different`. It maps directory records and Authorization Service identities to user profiles and remote-account extra data. It serializes directory records into canonical user records (`_serialize_ldap_user`, `serialize_ldap_users`) and groups into roles (`_serialize_groups`).
- **Account reconciliation.** `_update_existing` classifies each record: found by person id, found by (email, username), or missing. Missing records are collected in input order, and one commit is made before any insert. The account updates (`_update_user`, `_update_useridentity`, `_update_remote_account`, `update_existing_user`) apply a diff followed by a shallow merge to rows changed in place. `InvenioUserCreator.create` builds the three rows of a new account.
- **The Authorization Service client.** This covers retry counting in `request_with_retries` and the OAuth 2.0 client-credentials token request (section 4.4.2 of RFC 6749). The token request sends the client-credentials form in the POST body, and every identity and group request sends the token as a Bearer credential (section 2.1 of RFC 6750). It also covers the identity and group query parameters, the page offsets and pool size of `_fetch_all`, and the records a paged fetch yields in any completion order.

Modules follow the source files:

| module | file |
|---|---|
| `Results`, `Json`, `Text` | shared value types: Option/Result, JSON values, ASCII bytes and case mapping |
| `Utils` | `invenio_cern_sync/utils.py`, `invenio_cern_sync/users/utils.py` |
| `LdapProfile` | `invenio_cern_sync/users/profile.py` |
| `AuthzMapper` | `invenio_cern_sync/authz/mapper.py` |
| `Serializer` | `invenio_cern_sync/users/serializer.py` |
| `Queries` | SQLAlchemy's `one_or_none()` and `first()` over a table |
| `Accounts` | `invenio_cern_sync/users/api.py` |
| `Sync` | `invenio_cern_sync/users/sync.py` |
| `AuthzClient` | `invenio_cern_sync/authz/client.py` |
| `Groups` | `invenio_cern_sync/groups/sync.py` |

Pure code (mappers, serializers, query building) is modelled as functions, with lemmas about them. Code that changes state is modelled as methods:

- Rows are objects whose fields are updated in place: `User`, `UserIdentity`, `RemoteAccount`.
- The database session is a `Store` object with a commit counter.
- The retry loop and the paging loops are `while` loops.

Each method is proved against a function on plain row values or requests, and the source's promises are proved as lemmas about those functions.

The network, the clock, the thread pool and the configuration are parameters:

- `send(k)` is what the k-th attempt of a request receives.
- `fetch(r)` is the final result of request r.
- `order(n)` is the order in which n submitted pages complete. Any permutation is allowed.
- Configuration values and mapper functions are passed in as arguments.

The repository's files mix revisions. Where they disagree with each other or with their tests, the model follows the code and records the discrepancy:

- **Three-argument `first_or_raise`.** `_serialize_ldap_user` calls it with three arguments (`invenio_cern_sync/users/serializer.py:18-20`), but the function takes two. See Findings.
- **One-argument `first_or_default`.** The directory profile mappers call it with one argument (`invenio_cern_sync/users/profile.py:40-49, 60-62`). See Findings.
- **Key name in `_update_existing`.** It reads `"person_id"` (`invenio_cern_sync/users/sync.py:24`), while the serializer emits `user_identity_id` (`invenio_cern_sync/users/serializer.py:30`). See Findings.
- **Invalid records are skipped.** `serialize_ldap_users` drops records that raise `InvalidLdapUser` (`invenio_cern_sync/users/serializer.py:41-45`), although the serializer tests expect the error to reach the caller. The model follows the code.
- **Fallback lookup never succeeds.** The fallback branch of `_update_existing` re-queries the same person id that has just matched nothing (`invenio_cern_sync/users/sync.py:38-40`). A record matched only by (email, username) therefore still lands in `missing`. The branch looks unfinished; it is modelled as written, and `Sync.LoginOnlyMatchIsMissing` states the consequence.
- **Remote app name key.** `InvenioUserCreator` falls back to the configuration key `OAUTH_REMOTE_APP_NAME` (`invenio_cern_sync/users/api.py:24`), while `invenio_cern_sync/config.py` defines `CERN_SYNC_REMOTE_APP_NAME`. The model takes the fallback name as a constructor argument.

## Model

| member | source | states |
|---|---|---|
| Json.Merge | invenio_cern_sync/users/api.py:113 | `{**local, **incoming}`: the keys are the union; incoming values win; local-only keys keep their values |
| Json.MergeIdempotent | invenio_cern_sync/users/api.py:113 | merging the same incoming values twice equals merging them once |
| Text.Decode | invenio_cern_sync/users/utils.py:13 | UTF-8 decoding of ASCII bytes: one character per byte, with the same code |
| Text.Lower | invenio_cern_sync/users/serializer.py:22-23 | `str.lower()`: same length, each character case-mapped |
| Text.LowerIsLower | invenio_cern_sync/users/serializer.py:22-23 | a lower-cased string has no upper-case letter, and lower-casing it again changes nothing |
| Text.Upper | invenio_cern_sync/authz/client.py:28-30 | `str.upper()` on the HTTP method: same length, each character case-mapped |
| Utils.FirstOrRaise | invenio_cern_sync/users/utils.py:11-13 | the decoded first value exactly when the attribute exists, has a value and that value is bytes; otherwise KeyError (absent), IndexError (empty list) or AttributeError, naming the key |
| Utils.FirstOrDefault | invenio_cern_sync/users/utils.py:16-21 | `first_or_default(d, key, default)`: the decoded first value, or the default when `first_or_raise` raises; its meaning is stated by `Utils.FirstOrDefaultCases` |
| Utils.FirstOrDefaultCases | invenio_cern_sync/users/utils.py:16-21 | `first_or_default` gives the decoded first value when there is one, and the default exactly when `first_or_raise` raises |
| Utils.FirstOrRaiseNeverDefaults | invenio_cern_sync/utils.py:11-13 | an absent attribute is KeyError and an empty value list is IndexError; no default is substituted |
| Utils.DropNulls | invenio_cern_sync/utils.py:31 | the entries `get` can tell apart: exactly the keys with a non-None value, values kept |
| Utils.IsDifferent | invenio_cern_sync/utils.py:24-35 | `_is_different`: some key of either dictionary reads differently through `get`; its meaning is stated by `Utils.IsDifferentIffDropNullsDiffer` and `Utils.IsDifferentSymmetricIrreflexive` |
| Utils.IsDifferentIffDropNullsDiffer | invenio_cern_sync/utils.py:24-35 | `_is_different` holds exactly when the two dictionaries differ once None-valued entries are dropped (both directions) |
| Utils.IsDifferentSymmetricIrreflexive | invenio_cern_sync/utils.py:24-35 | `_is_different` is symmetric, and a dictionary never differs from itself |
| Utils.NullIsAbsentEmptyIsNot | invenio_cern_sync/utils.py:31 | a key mapped to None reads as absent, but a key mapped to "" does not |
| LdapProfile.UserprofileMapperAsWritten | invenio_cern_sync/users/profile.py:39-50 | as written, the mapper always raises: KeyError when division is absent, otherwise TypeError from the one-argument call |
| LdapProfile.RemoteaccountExtradataMapperAsWritten | invenio_cern_sync/users/profile.py:59-63 | as written, the mapper always raises: KeyError when employeeID is absent, otherwise TypeError |
| LdapProfile.UserprofileMapper | invenio_cern_sync/users/profile.py:39-50 | the corrected directory profile mapper (`first_or_default(ldap_user, attribute)` per key); its meaning is stated by `LdapProfile.UserprofileFromAttributes` |
| LdapProfile.RemoteaccountExtradataMapper | invenio_cern_sync/users/profile.py:59-63 | the corrected directory extra-data mapper, username lower-cased; its meaning is stated by `LdapProfile.RemoteaccountExtradataFromAttributes` |
| LdapProfile.UserprofileFromAttributes | invenio_cern_sync/users/profile.py:39-50 | the profile has exactly the ten profile keys; each holds the decoded first value of its directory attribute, or "" when there is none |
| LdapProfile.RemoteaccountExtradataFromAttributes | invenio_cern_sync/users/profile.py:59-63 | the extra data has exactly person_id, uidNumber and username; each is the decoded first value of employeeID, uidNumber and cn (the username lower-cased, with no upper-case letter) when the attribute has one, and "" when it has none |
| AuthzMapper.UserprofileMapper | invenio_cern_sync/authz/mapper.py:11-30 | the identity profile mapper, KeyError for a missing field; its meaning is stated by `AuthzMapper.UserprofileMapperFailsOnMissingField` and `AuthzMapper.UserprofileMapperCopiesFields` |
| AuthzMapper.RemoteaccountExtradataMapper | invenio_cern_sync/authz/mapper.py:33-44 | the identity extra-data mapper; its meaning is stated by `AuthzMapper.RemoteaccountExtradataMapperMeaning` |
| AuthzMapper.FirstAbsent | invenio_cern_sync/authz/mapper.py:19-30 | None exactly when every listed field is present; otherwise the first absent field in reading order |
| AuthzMapper.UserprofileMapperFailsOnMissingField | invenio_cern_sync/authz/mapper.py:19-30 | the profile mapper succeeds exactly when all nine required fields are present; a failure is KeyError for the first absent one in reading order |
| AuthzMapper.UserprofileMapperCopiesFields | invenio_cern_sync/authz/mapper.py:19-30 | a returned profile has exactly the ten keys, each copied unchanged from its identity field; mailbox is "" when postOfficeBox is absent |
| AuthzMapper.RemoteaccountExtradataMapperMeaning | invenio_cern_sync/authz/mapper.py:40-44 | succeeds exactly when personId and uid are present and upn is a string; the extra data then has exactly person_id, uidNumber (uid unchanged) and the lower-cased upn |
| Serializer.SerializeLdapUserAsWritten | invenio_cern_sync/users/serializer.py:18-20 | as written, every record raises TypeError at the first `first_or_raise` call |
| Serializer.SerializeLdapUsersAsWritten | invenio_cern_sync/users/serializer.py:40-45 | as written, the generator yields nothing and raises on any non-empty input, because TypeError is not the InvalidLdapUser it skips |
| Serializer.SerializeLdapUser | invenio_cern_sync/users/serializer.py:16-32 | the corrected `_serialize_ldap_user`; its meaning is stated by `Serializer.SerializeLdapUserFailure` and `Serializer.SerializeLdapUserFields` |
| Serializer.SerializeLdapUsers | invenio_cern_sync/users/serializer.py:35-45 | `serialize_ldap_users` over the corrected serializer, skipping invalid records; its meaning is stated by `Serializer.SerializeLdapUsersAppend`, `SerializeLdapUsersCount`, `SerializeLdapUsersProvenance` and `PartialFailureIsolation` |
| Serializer.RequiredAttribute | invenio_cern_sync/users/serializer.py:18-23 | a required attribute: its decoded first value when present, else `InvalidLdapUser(key, employee_id)` |
| Serializer.SerializeLdapUserFailure | invenio_cern_sync/users/serializer.py:18-23 | a record serializes exactly when employeeID, mail and cn are present; otherwise the error names the first missing one, with employee id "unknown" when employeeID itself is missing |
| Serializer.SerializeLdapUserFields | invenio_cern_sync/users/serializer.py:21-32 | email and username are mail and cn lower-cased; the identity id is employeeID; active is "active" in any case, true when absent; preferences is exactly the lower-cased locale, "en" by default; profile and extra data are the mappers' results |
| Serializer.DefaultMappersAgreeOnPersonId | invenio_cern_sync/users/serializer.py:18-31 | with the default mappers, the profile's and the extra data's person_id both equal the record's identity id |
| Serializer.SerializeLdapUsersAppend | invenio_cern_sync/users/serializer.py:40-45 | serializing a concatenated batch is serializing each part in order |
| Serializer.SerializeLdapUsersCount | invenio_cern_sync/users/serializer.py:40-45 | exactly one output per valid record, none for an invalid one |
| Serializer.SerializeLdapUsersProvenance | invenio_cern_sync/users/serializer.py:40-45 | every output is the serialization of some input record |
| Serializer.PartialFailureIsolation | invenio_cern_sync/users/serializer.py:41-45 | with exactly one invalid record, every other record comes through, in order, around it |
| Queries.OneOrNone | invenio_cern_sync/users/sync.py:23-25 | `one_or_none()`: no row exactly when none matches; the one row when exactly one matches; MultipleResultsFound exactly when two do |
| Queries.First | invenio_cern_sync/users/sync.py:38-40 | `first()`: the first matching row in storage order, None exactly when none matches |
| Queries.FirstAgreesWithOneOrNone | invenio_cern_sync/users/sync.py:38-40 | when one row matches, `first()` and `one_or_none()` return it |
| Accounts.MergeWhenDiffersMeaning | invenio_cern_sync/users/api.py:105-113 | after the diff-then-merge, incoming keys read as incoming (absent as ""), local-only keys are kept, no other key appears, the dict is rewritten exactly when an incoming key differed, and a second pass finds nothing to do |
| Accounts.EmptyIncomingValueNotStored | invenio_cern_sync/users/api.py:108-113 | for any dicts, an incoming "" for a key the local dict lacks is not a difference by itself: it is stored (as "") exactly when another incoming key differs, while a plain merge always stores it |
| Accounts.IncomingDiffersVersusIsDifferent | invenio_cern_sync/users/api.py:108-111 | the update diff (incoming keys only, absent as "") implies `_is_different` for None-free input; each can report a difference the other misses |
| Accounts.UserAfterUpdate | invenio_cern_sync/users/api.py:93-129 | the user row `_update_user` leaves; its meaning is stated by `Accounts.UserAfterUpdateMeaning` and `Accounts.UserUpdateIdempotent` |
| Accounts.UserAfterUpdateMeaning | invenio_cern_sync/users/api.py:93-129 | email, username and active are rewritten together and only when one differs (username compared lower-cased); profile and preferences follow the diff-then-merge rule; id and confirmation are untouched |
| Accounts.MixedCaseUsernameAlwaysRewritten | invenio_cern_sync/users/api.py:95-103 | an incoming username with upper-case letters, once written, is found different again on every later run; the serializer lower-cases usernames (invenio_cern_sync/users/serializer.py:23), so the pipeline itself never produces such a record |
| Accounts.UserUpdateIdempotent | invenio_cern_sync/users/api.py:93-129 | updating a user twice from the same record equals updating it once |
| Accounts.IdentityAfterUpdateMeaning | invenio_cern_sync/users/api.py:132-136 | the identity then carries the incoming id, keeps its method and user, and is rewritten only if the id differed |
| Accounts.AccountsAfterUpdate | invenio_cern_sync/users/api.py:139-148 | the account table `_update_remote_account` leaves; its meaning is stated by `Accounts.AccountsAfterUpdateMeaning` and `Accounts.AccountsUpdateIdempotent` |
| Accounts.AccountsAfterUpdateMeaning | invenio_cern_sync/users/api.py:139-148 | with no account for the user and client, a new last row holds exactly the new extra data; otherwise that account's extra data is updated in place, other keys (such as keycloak_id) and other rows unchanged |
| Accounts.AccountsUpdateIdempotent | invenio_cern_sync/users/api.py:139-148 | updating the remote account twice with the same data equals updating it once |
| Accounts.UpdateExistingUserIdempotent | invenio_cern_sync/users/api.py:151-155 | running `update_existing_user` twice with the same record leaves the state of running it once |
| Accounts.User.constructor | invenio_cern_sync/users/api.py:29-34 | a new user holds the given email, username, active flag and profile, with default preferences and not confirmed |
| Accounts.UserIdentity.constructor | invenio_cern_sync/users/api.py:42-46 | a new identity holds the given id, method and user id |
| Accounts.RemoteAccount.constructor | invenio_cern_sync/users/api.py:50-57 | a new remote account holds the given user, client and extra data |
| Accounts.UpdateUser | invenio_cern_sync/users/api.py:93-129 | rewrites the user object in place to `UserAfterUpdate` of its old row |
| Accounts.UpdateUserIdentity | invenio_cern_sync/users/api.py:132-136 | rewrites the identity in place to `IdentityAfterUpdate`, and reports a change exactly when the id differed |
| Accounts.UpdateRemoteAccount | invenio_cern_sync/users/api.py:139-148 | the account table becomes `AccountsAfterUpdate` of the old one; users, identities and commits are unchanged |
| Accounts.UpdateExistingUser | invenio_cern_sync/users/api.py:151-155 | the user, the identity and the account table become `LocalAfterUpdate` of the old state; nothing else changes |
| Accounts.NewExtraData | invenio_cern_sync/users/api.py:53-56 | `dict(keycloak_id=username, **extra)`: keycloak_id is the username and every extra key is copied; refused exactly when the extra data has its own keycloak_id |
| Accounts.CreateAsWrittenOrphansUser | invenio_cern_sync/users/api.py:74-77 | as written, `create` commits a user and then raises, leaving the user with no identity and no remote account |
| Accounts.Created | invenio_cern_sync/users/api.py:59-86 | the tables and result of the corrected `create`; its meaning is stated by `Accounts.CreatedMeaning` and `Accounts.CreateThenUpdateKeepsKeycloakId` |
| Accounts.CreatedMeaning | invenio_cern_sync/users/api.py:59-86 | a created account returns the new user's id; the user holds the record's fields and is confirmed when asked; its identity carries the person id under the remote app's name; its account holds keycloak_id plus the extra data; the tables stay consistent |
| Accounts.CreateThenUpdateKeepsKeycloakId | invenio_cern_sync/users/api.py:48-57 | a later update from the same record keeps the keycloak_id that creation wrote |
| Accounts.InvenioUserCreator.constructor | invenio_cern_sync/users/api.py:20-25 | keeps the client id; the remote app name is the given one, or the configured one when the given one is None or "" |
| Accounts.InvenioUserCreator.CreateUser | invenio_cern_sync/users/api.py:27-38 | appends the new user row with the next id and commits once; identities and accounts are unchanged |
| Accounts.InvenioUserCreator.CreateAsWritten | invenio_cern_sync/users/api.py:74-77 | the store and result become `CreatedAsWritten`: one committed user and TypeError |
| Accounts.InvenioUserCreator.AddIdentity | invenio_cern_sync/users/api.py:40-46 | appends one identity with the record's person id, the creator's remote app name and the user id |
| Accounts.InvenioUserCreator.AddRemoteAccount | invenio_cern_sync/users/api.py:48-57 | appends one remote account for the creator's client with the given extra data |
| Accounts.InvenioUserCreator.ConfirmLast | invenio_cern_sync/users/api.py:83-85 | only the just-created user's row changes, to confirmed |
| Accounts.InvenioUserCreator.Create | invenio_cern_sync/users/api.py:59-86 | the store and result become `Created` of the old tables, with one commit |
| Sync.Classify | invenio_cern_sync/users/sync.py:21-40 | the two lookups of one record: found, missing or MultipleResultsFound; its meaning is stated by `Sync.FoundMeansIdentityAndUser`, `PersonIdTakesPrecedence`, `PersonIdMatchNeverMissing` and `LoginOnlyMatchIsMissing` |
| Sync.Collect | invenio_cern_sync/users/sync.py:19-49 | the loop over the records, collecting the missing ones and stopping at the first raise; its meaning is stated by `Sync.CollectAppend`, `CollectCompletes`, `CollectSound`, `CollectComplete`, `CollectStep` and `FirstRaiseWins` |
| Sync.FoundMeansIdentityAndUser | invenio_cern_sync/users/sync.py:23-40 | a found record has an identity carrying its person id and an existing user |
| Sync.PersonIdTakesPrecedence | invenio_cern_sync/users/sync.py:23-35 | when an identity carries the person id, email and username are never consulted |
| Sync.PersonIdMatchNeverMissing | invenio_cern_sync/users/sync.py:26-27 | in consistent tables a record whose person id matches an identity is found, or the lookup raises MultipleResultsFound; it is never missing |
| Sync.LoginOnlyMatchIsMissing | invenio_cern_sync/users/sync.py:36-40 | with an unknown person id a record is never found, even when one user has its email and username: it is missing, or MultipleResultsFound |
| Sync.CollectAppend | invenio_cern_sync/users/sync.py:19-49 | the loop over a concatenation is the two loops in turn: the missing lists concatenate in input order, and the first exception wins |
| Sync.CollectCompletes | invenio_cern_sync/users/sync.py:20-49 | the loop finishes exactly when no record's lookup raises |
| Sync.CollectSound | invenio_cern_sync/users/sync.py:43-49 | every record in the missing list is one of the input records and was classified missing |
| Sync.CollectComplete | invenio_cern_sync/users/sync.py:43-49 | every input record classified missing is in the missing list |
| Sync.CollectStep | invenio_cern_sync/users/sync.py:20-49 | one more record that does not raise appends itself to the missing list exactly when it is classified missing |
| Sync.FirstRaiseWins | invenio_cern_sync/users/sync.py:20-49 | the first record whose lookup raises ends the loop with that exception |
| Sync.MissingOfAsWritten | invenio_cern_sync/users/sync.py:23-25 | as written, any non-empty batch raises KeyError("person_id") |
| Sync.PersonIdKeyFixed | invenio_cern_sync/users/sync.py:23-25 | a record whose person id is stored raises KeyError as written, and is not missing once the emitted key is read |
| Sync.UpdateExistingAsWritten | invenio_cern_sync/users/sync.py:17-53 | result is `MissingOfAsWritten`; a commit happens exactly when the loop finishes |
| Sync.LookUp | invenio_cern_sync/users/sync.py:21-40 | the two lookups of one record conclude `Classify` |
| Sync.UpdateExisting | invenio_cern_sync/users/sync.py:17-53 | returns the missing list of the serialized records against the tables as they were; no row changes; one commit exactly when the loop finishes |
| AuthzClient.Retried | invenio_cern_sync/authz/client.py:22-40 | the reply of `request_with_retries`; its meaning is stated by `AuthzClient.RetriedMeaning` |
| AuthzClient.OnWire | invenio_cern_sync/authz/client.py:28-31 | a GET sends the URL and headers; any other method the retry loop accepts is a POST with the payload as form data and the headers |
| AuthzClient.FirstResponse | invenio_cern_sync/authz/client.py:26-35 | None exactly when all of the first n attempts fail; otherwise the first attempt that got a response |
| AuthzClient.RetriedMeaning | invenio_cern_sync/authz/client.py:22-40 | at most `retries` attempts; the reply is the first response, or `RequestError(url, last message)` once all failed; an unsupported method fails before any attempt; no attempt and no response when `retries` is not positive |
| AuthzClient.RequestWithRetries | invenio_cern_sync/authz/client.py:22-40 | the retry loop returns `Retried` after `AttemptsMade` attempts, each sending `OnWire` of the call (its URL, form payload and headers), sleeping `delay` between attempts and not after the last |
| AuthzClient.TokenPayload | invenio_cern_sync/authz/client.py:60-65 | the token form; its meaning is stated by `AuthzClient.TokenPayloadIsClientCredentialsGrant` |
| AuthzClient.TokenCall | invenio_cern_sync/authz/client.py:59-66 | the token request: a POST to the realm's token URL with the client-credentials form as payload and no headers |
| AuthzClient.TokenPayloadIsClientCredentialsGrant | invenio_cern_sync/authz/client.py:59-65 | the token form carries grant_type client_credentials, the client id and secret, and audience authorization-service-api |
| AuthzClient.AccessToken | invenio_cern_sync/authz/client.py:67 | the token is the reply's access_token; a request error passes through; a reply without it is an error |
| AuthzClient.GetAuthzToken | invenio_cern_sync/authz/client.py:57-67 | the token is `AccessToken` of the retried token call; one to three attempts, each a POST to the realm's token URL whose form body is exactly the client-credentials payload; a request error means all three were sent and failed |
| AuthzClient.BearerHeaders | invenio_cern_sync/authz/client.py:150-153 | exactly two headers: Authorization "Bearer " followed by the token, and accept application/json |
| AuthzClient.FieldParams | invenio_cern_sync/authz/client.py:161 | one `field` parameter per requested field, in order |
| AuthzClient.IdentityQuery | invenio_cern_sync/authz/client.py:155-164 | the identity query parameters; its meaning is stated by `AuthzClient.IdentityQueryMeaning` |
| AuthzClient.GroupQuery | invenio_cern_sync/authz/client.py:185-191 | the group query parameters; its meaning is stated by `AuthzClient.GroupQueryIsIdentityQueryWithoutFilters` |
| AuthzClient.IdentityQueryMeaning | invenio_cern_sync/authz/client.py:155-164 | limit first, the three identity filters, the fields in order, and a final modification-time filter exactly when `since` is given; a `since` that is not a date is refused |
| AuthzClient.GroupQueryIsIdentityQueryWithoutFilters | invenio_cern_sync/authz/client.py:185-191 | the group query is the identity query without the three identity filters, and contains none of them |
| AuthzClient.Offsets | invenio_cern_sync/authz/client.py:122-129 | the loop's offsets step by `limit` from the start, all below the total, and stop only at the total |
| AuthzClient.OffsetsAreMultiples | invenio_cern_sync/authz/client.py:116-129 | each offset after the first page is (i + 1) times the limit, below the total |
| AuthzClient.MultiplesAreOffsets | invenio_cern_sync/authz/client.py:116-129 | every positive multiple of the limit below the total is requested |
| AuthzClient.OffsetsAreMultiplesOfLimit | invenio_cern_sync/authz/client.py:116-129 | the later offsets are exactly the positive multiples of the limit below the total |
| AuthzClient.OffsetsExample | invenio_cern_sync/authz/client.py:116-129 | total 2500 and limit 1000 give the later offsets 1000 and 2000 |
| AuthzClient.PoolSize | invenio_cern_sync/authz/client.py:118-120 | the thread pool's worker count; its meaning is stated by `AuthzClient.PoolSizeMeaning` |
| AuthzClient.PageCall | invenio_cern_sync/authz/client.py:112-113 | a page request: a GET of the query with the page's offset, carrying the caller's headers and no payload |
| AuthzClient.PoolSizeMeaning | invenio_cern_sync/authz/client.py:118-120 | max_threads when the CPU count is unknown or 0; otherwise at most both, and equal to one of them |
| AuthzClient.SubmitPages | invenio_cern_sync/authz/client.py:122-129 | the submission loop requests exactly the pages at `Offsets`, in order |
| AuthzClient.DrainPages | invenio_cern_sync/authz/client.py:131-133 | the `as_completed` loop yields `Drain` of the pages in completion order |
| AuthzClient.Fetched | invenio_cern_sync/authz/client.py:106-133 | what `_fetch_all` yields and raises and which pages it requests; its meaning is stated by `AuthzClient.FetchedCalls`, `FirstPageFirst` and `FetchedOrderIndependent` |
| AuthzClient.FetchedCalls | invenio_cern_sync/authz/client.py:106-129 | every request of `_fetch_all` is a GET of page i at offset i times the limit, carrying the caller's headers, starting with the first page |
| AuthzClient.ServiceToken | invenio_cern_sync/authz/client.py:149 | the token request a service query makes first: `AccessToken` of the retried token call |
| AuthzClient.Query | invenio_cern_sync/authz/client.py:149-168 | the shared shape of both queries: token request, then query URL, then the paged fetch with Bearer headers; its meaning is stated by `AuthzClient.QueryMeaning` |
| AuthzClient.QueryMeaning | invenio_cern_sync/authz/client.py:149-168 | a failed token request is the query's error, before the URL is built; then a refused URL is; otherwise the token call comes first and every later request is a GET of the endpoint, without payload, carrying `BearerHeaders` of the token |
| AuthzClient.GetIdentities | invenio_cern_sync/authz/client.py:135-168 | `get_identities`: the token request, then the paged fetch of the Identity endpoint with the identity query and Bearer headers |
| AuthzClient.GetGroups | invenio_cern_sync/authz/client.py:170-195 | `get_groups`: the token request, then the paged fetch of the Group endpoint with the group query and Bearer headers |
| AuthzClient.ServiceCallsCarryToken | invenio_cern_sync/authz/client.py:149-195 | both queries first request the token, and a token failure is their error; with a token they fail exactly when `since` is given and is not a date; otherwise the first request is the token POST and every page request is a GET with no payload to the Identity (respectively Group) endpoint, carrying `BearerHeaders` of the token (a string token as itself) |
| AuthzClient.FetchAll | invenio_cern_sync/authz/client.py:106-133 | `_fetch_all` yields, raises and requests what `Fetched` says |
| AuthzClient.DrainStops | invenio_cern_sync/authz/client.py:131-133 | once a page raises, nothing completed after it is yielded |
| AuthzClient.FirstPageFirst | invenio_cern_sync/authz/client.py:113-115 | the first page's records are yielded before any other page's |
| AuthzClient.FlatPermutation | invenio_cern_sync/authz/client.py:131-133 | taking the same pages in another order yields the same multiset of records |
| AuthzClient.DrainAllOk | invenio_cern_sync/authz/client.py:131-133 | when no page fails, draining yields every page's records in completion order and raises nothing |
| AuthzClient.FetchedOrderIndependent | invenio_cern_sync/authz/client.py:121-133 | when every page arrives, any two completion orders make the same requests and yield the same multiset of records |
| Groups.SerializeGroup | invenio_cern_sync/groups/sync.py:22-26 | one group to a role; its meaning is stated by `Groups.SerializeGroupMeaning` and `Groups.SerializeGroupOfRole` |
| Groups.SerializeGroups | invenio_cern_sync/groups/sync.py:19-26 | `_serialize_groups`; its meaning is stated by `Groups.SerializeGroupsMeaning` and the lemmas after it |
| Groups.SerializeGroupMeaning | invenio_cern_sync/groups/sync.py:22-26 | a group serializes exactly when it is a dict with groupIdentifier, displayName and description; the role has exactly id, name and description copied from them; otherwise TypeError, or KeyError for the first missing key |
| Groups.SerializeGroupOfRole | invenio_cern_sync/groups/sync.py:22-26 | every role with the three role keys is the serialization of a group (the inverse direction) |
| Groups.SerializeGroupIgnoresOtherKeys | invenio_cern_sync/groups/sync.py:22-26 | only the three group keys matter: extra keys of a group are dropped |
| Groups.SerializeGroupsMeaning | invenio_cern_sync/groups/sync.py:19-26 | one role per group, in order, up to the first group that fails; that group's fault is raised; nothing is raised only when every group was serialized |
| Groups.SerializeGroupsStopsAtFirstMalformed | invenio_cern_sync/groups/sync.py:21-26 | the generator raises exactly when some group is malformed, and stops at the first malformed one |
| Groups.SerializeGroupsStopsForGood | invenio_cern_sync/groups/sync.py:21-26 | once a batch raises, groups after it are never read |
| Groups.SerializeGroupsAppend | invenio_cern_sync/groups/sync.py:21-26 | over two batches with no failure in the first, the roles concatenate and the second batch's fault is raised |
| Groups.RoleIdsAreGroupIdentifiers | invenio_cern_sync/groups/sync.py:21-23 | with well-formed groups, the role ids are the group identifiers, in order |

## Left out

- Network I/O (`requests.get`/`post`, `raise_for_status`), `time.sleep`, the thread pool and `as_completed`: attempts, page results and the completion order are parameters. A sleep is recorded as the delay it would wait.
- URL encoding: a URL is kept as its base and its ordered list of query parameters.
- UTF-8 decoding and Unicode `lower()`/`upper()`: modelled on ASCII, where a byte decodes to the code point with the same number and only 'A'..'Z' change case. A value that is not valid UTF-8 makes Python raise UnicodeDecodeError, which neither `first_or_default` (`invenio_cern_sync/users/utils.py:20`) nor the skip in `serialize_ldap_users` (`invenio_cern_sync/users/serializer.py:43`) catches, so in the source one such attribute aborts the whole batch; the model has no such error path.
- `datetime.strptime`: `since` is accepted only as a two-digit YYYY-MM-DD with month 1-12 and day 1-31. The model checks no calendar validity, and it rejects the one-digit fields Python also accepts.
- SQLAlchemy, `db.session.add`, session rollback on an exception, and the order of rows behind `first()`: tables are sequences in insertion order, and a commit is a counter.
- `RemoteAccount.get` is modelled as `first()` over the rows with the user's id and the client id. `RemoteAccount.create` is modelled as appending a row.
- `confirm_user`: confirmation is a boolean, with no timestamp. The library's default preferences of a new user are modelled as the empty dict.
- Flask `current_app.config` lookups: the client id, the remote app name and the mapper functions are parameters.
- Exceptions raised inside the injected mappers: the serializer takes them as total functions.
- AuthzClient.BearerHeaders: takes the token as a string. The queries render the token through the parameter `tokenText`, and `ServiceCallsCarryToken` pins it down only for a string token (rendered as itself); the f-string formatting of a token of another JSON type is not modelled.
- AuthzClient.FetchAll: requires `limit > 0` (as do `Fetched`, `GetIdentities` and `GetGroups`), because with a limit of 0 or less the source's submission loop does not end whenever the total exceeds the limit.
- AuthzClient.Fetched: a first page whose `pagination.total` is not an integer is a MalformedBody error before anything is yielded. Python yields that page's data first and fails later, at `offset < total`.
- The `data` field of a page is read only when it is a JSON array. Any other value is a MalformedBody error, where Python would iterate over it.
- JSON equality: `Json.Value` tells `Bool(true)` apart from `Int(1)`, and so does the model of `_is_different`. Python's `!=` treats `True == 1`.
- The LDAP client, `create_or_update_roles`, `groups/sync.py` `sync` (orchestration, timing and logging), and `users/sync.py` `sync`: foreign code, or wiring around the modelled core.
- logging.py, ext.py, config.py, tasks.py, errors.py and the marshmallow `CERNUserProfileSchema`: configuration, framework bootstrap and declarations with no logic to prove.

## Findings

| source | as written | input that shows it | evidently intended | confidence | as-written member | corrected member |
|---|---|---|---|---|---|---|
| invenio_cern_sync/users/serializer.py:18-20 | `first_or_raise(ldap_user, "employeeID", "unknown")` passes three arguments to a two-argument function, so every record raises TypeError, which the skip in `serialize_ldap_users` does not catch | any directory record, e.g. one with employeeID, mail and cn all present | a missing employeeID, mail or cn raises `InvalidLdapUser(field, employee id)`, with "unknown" when employeeID is missing, and the generator skips that record | not executed | Serializer.SerializeLdapUsersAsWritten | Serializer.SerializeLdapUsers |
| invenio_cern_sync/users/profile.py:40-49 | `first_or_default(ldap_user["division"])` passes only the value list, so each mapper raises TypeError, or KeyError first when the attribute is absent; the extra-data username is not lower-cased (line 62) | any record, e.g. one with every profile attribute present | `first_or_default(ldap_user, attribute)`, so a missing attribute reads as "", and the extra-data username lower-cased | not executed | LdapProfile.UserprofileMapperAsWritten | LdapProfile.UserprofileMapper |
| invenio_cern_sync/users/sync.py:23-25 | the loop reads `invenio_user["person_id"]`, a key the serializer never emits | any non-empty batch of valid records | look up by the emitted `user_identity_id` | not executed | Sync.MissingOfAsWritten | Sync.PersonIdKeyFixed |
| invenio_cern_sync/users/api.py:74-77 | `user` is rebound to the committed User object, and `user["user_identity_id"]` on it raises TypeError, leaving a committed user with no identity and no remote account | any record passed to `create` | build the identity and the remote account from the record, with the new user's id | not executed | Accounts.CreateAsWrittenOrphansUser | Accounts.CreatedMeaning |
