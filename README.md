# Matrix Authentication Service: a verified model of its core rules

This project models, in Dafny, the parts of the Matrix Authentication Service
(MAS) that decide things, and proves what they promise:

- **PKCE** (`Pkce`). Code-verifier validation, challenge computation with
  `plain` and `S256`, and challenge verification (RFC 7636).
- **Legacy Matrix login** (`CompatLogin`). The advertised login flows and how
  the username is resolved. Password login with rate limiting and password
  upgrade, and SSO login-token exchange with its 30-second window. The mapping
  of errors to Matrix error responses, and the `post` handler. The handler
  runs in a repository transaction that is committed only on success.
- **Device-code consent** (`DeviceConsent`). The checks of the consent page
  and the form, in order: browser session, grant, expiry, client, policy.
  Then the pending → fulfilled/rejected transition.
- **Tchap helpers** (`Tchap`). Name capitalisation, email → Matrix-ID
  localpart, and email → display name with the organisation rules.
- **Mock homeserver** (`MatrixMock`). The in-memory homeserver used by the
  tests: user provisioning, devices, deactivation and reactivation, display
  names, cross-signing reset, and token checks.
- **Policy results** (`PolicyModel`). Violation codes, validity, and the
  comma-separated rendering of violations.
- **Admin users list** (`AdminUsersList`). The filter parameters, their
  query-string rendering and parsing, the mapping to a storage filter, and
  the error statuses.
- **JOSE code generation** (`Jose`). Which generated enum each IANA registry
  row belongs to.
- **Synapse → MAS migration** (`Migration`). The per-row rules of every
  migrated table: user flags, `transform_user`, appservice skipping,
  deactivated and guest users, missing users, unmapped providers, the
  `(user, device) → session` table, and deviceless sessions.

Supporting modules: `Results` (Option and Result), `Text` (join, split,
containment and filtering on strings, with their lemmas), and `MatrixIds`
(building a Matrix ID from a localpart and taking it apart again).

How the model takes the source's form:

- Pure code is datatypes and functions.
- Code that changes state is classes whose methods update fields:
  - the mock homeserver;
  - the login transaction;
  - the consent repository;
  - the migration state;
  - the loop of the policy violations' `Display` implementation;
  - the filter `Display` implementation, which updates its output and separator step by step (two `if`s, no loop).
- Each such method is proved equal to a specification function. The
  properties are proved about those functions.

Identifiers, and the outside world, are parameters:

- Randomness and ULIDs are counters or parameters.
- Clocks are integers.
- SHA-256, the password verifier, the rate limiter, homeserver device
  provisioning and IP parsing are function parameters.

## Model

| member | source | states |
|---|---|---|
| Pkce.ValidateVerifier | crates/oauth2-types/src/pkce.rs:43-60 | `TooShort` iff shorter than 43, `TooLong` iff longer than 128, `InvalidCharacters` iff in range but some character is not unreserved, Ok iff the verifier is valid per RFC 7636 section 4.1; length checked before characters |
| Pkce.VerifierByteIsUnreserved | crates/oauth2-types/src/pkce.rs:52-54 | the per-character test (`is_ascii_alphanumeric` or `-._~`) accepts exactly RFC 7636's unreserved set |
| Pkce.ComputeChallenge | crates/oauth2-types/src/pkce.rs:92-108 | an invalid verifier gives its validation error whatever the method; a valid verifier gives `plain` → itself, `S256` → the hash, an unknown method → `UnknownChallengeMethod` |
| Pkce.Verify | crates/oauth2-types/src/pkce.rs:79-88 | Ok iff the verifier is valid, the method known and the transform equals the challenge; `VerificationFailed` iff only the comparison fails |
| Pkce.RoundTrip | crates/oauth2-types/src/pkce.rs:79-108 | a challenge computed from a valid verifier with a known method verifies |
| Pkce.PlainPinsVerifier | crates/oauth2-types/src/pkce.rs:95-96 | with `plain`, two verifiers accepted for one challenge are equal |
| CompatLogin.LoginFlows | crates/handlers/src/compat/login.rs:74-92 | `m.login.password` is offered iff password login is enabled; SSO and token flows always |
| CompatLogin.IntoResponse | crates/handlers/src/compat/login.rs:192-260 | unknown user, no password and wrong password all give `M_FORBIDDEN`/403 "Invalid username/password"; rate limiting gives `M_LIMIT_EXCEEDED`/429 "Too many login attempts" and nothing else gives 429; every 500 is `M_UNKNOWN` "Internal server error", given exactly for internal errors, a missing session and a failed device provisioning; 400 exactly for body, login-type and identifier errors |
| CompatLogin.CredentialErrorsIndistinguishable | crates/handlers/src/compat/login.rs:243-249 | any two credential errors get the same response |
| CompatLogin.ResolveUsername | crates/handlers/src/compat/login.rs:293-301 | a flat `user` wins whenever present; otherwise a user identifier; an unsupported identifier alone gives `UnsupportedIdentifier`; neither gives `MissingIdentifier` |
| CompatLogin.LookupNameOfMxid | crates/handlers/src/compat/login.rs:450-451 | a full Matrix ID on this server is looked up by its localpart; a bare localpart is looked up as given |
| CompatLogin.TokenSession | crates/handlers/src/compat/login.rs:383-419 | Ok (the session id) iff the login is fulfilled and `now <= fulfilled_at + 30 s`; pending and exchanged give `InvalidLoginToken` at any time; fulfilled and late gives `LoginTookTooLong` |
| CompatLogin.TokenWindowBoundary | crates/handlers/src/compat/login.rs:397 | exactly 30 000 000 µs after fulfilment still works; one microsecond later does not |
| CompatLogin.PostSpec | crates/handlers/src/compat/login.rs:324-369 | on success the response has a refresh token iff one was requested, `expires_in_ms` equal to the compat token TTL iff requested, and the generated access token |
| CompatLogin.Transaction.TokenLogin | crates/handlers/src/compat/login.rs:372-437 | returns the token login's outcome and leaves the tables as the specification says, marking the login exchanged only after session and valid user are found |
| CompatLogin.Transaction.UserPasswordLogin | crates/handlers/src/compat/login.rs:439-515 | step by step: find the valid user, check the limiter, find the password, verify it, store an upgraded hash, provision the device, add the session; result and tables equal the specification |
| CompatLogin.Transaction.RecordUserAgent | crates/handlers/src/compat/login.rs:324-329 | the session gets the user agent and is stored back; nothing else changes |
| CompatLogin.Transaction.AddAccessToken | crates/handlers/src/compat/login.rs:340-344 | appends one access token for the session; nothing else changes |
| CompatLogin.Transaction.AddRefreshToken | crates/handlers/src/compat/login.rs:346-355 | appends one refresh token for the session and access token; nothing else changes |
| CompatLogin.Database.Post | crates/handlers/src/compat/login.rs:267-370 | the answer equals the specification; the committed tables become the transaction's on success and stay unchanged on every error |
| CompatLogin.PasswordLoginGate | crates/handlers/src/compat/login.rs:281-322 | password credentials are `Unsupported` when password login is disabled; token credentials behave the same either way; unknown credential types are `Unsupported` |
| CompatLogin.RateLimitBeforePassword | crates/handlers/src/compat/login.rs:453-469 | a rate-limited valid user is refused with `RateLimited` whatever the password, the verifier, and even with no password at all |
| CompatLogin.InvalidUserIsNotFound | crates/handlers/src/compat/login.rs:454-459 | a locked or deactivated user gets `UserNotFound`, answered like a wrong password |
| CompatLogin.PasswordLoginEffects | crates/handlers/src/compat/login.rs:471-515 | on success the password verified, an upgraded hash is stored iff the verifier returned one, the device was provisioned, and exactly one session with that device was added |
| CompatLogin.ProvisionFailureAddsNoSession | crates/handlers/src/compat/login.rs:502-507 | if the homeserver refuses the device the result is `ProvisionDeviceFailed` |
| CompatLogin.TokenLoginEffects | crates/handlers/src/compat/login.rs:421-436 | a successful token login came from a fulfilled login with a known session and a valid user, and changes only that login, to exchanged at `now` |
| CompatLogin.LoginTokenSingleUse | crates/handlers/src/compat/login.rs:403-418 | after a committed token login, the same token is refused with `InvalidLoginToken` at any later time |
| CompatLogin.PostKeepsSsoLogins | crates/handlers/src/compat/login.rs:324-357 | what `post` does after logging in leaves SSO logins alone |
| CompatLogin.PostIssuesTokens | crates/handlers/src/compat/login.rs:333-355 | a successful `post` adds exactly one access token for the session, and one refresh token iff requested |
| DeviceConsent.ParseActionName | crates/handlers/src/oauth2/device/consent.rs:29-34 | the lowercase wire names `consent`/`reject` parse back to their action |
| DeviceConsent.Decide | crates/handlers/src/oauth2/device/consent.rs:201-224 | a pending grant becomes fulfilled or rejected by the session at `now`; a non-pending grant is returned as is; identity, client and expiry never change |
| DeviceConsent.Gate | crates/handlers/src/oauth2/device/consent.rs:148-199 | no browser session redirects to login for this grant; the handler proceeds iff session, grant, unexpired (`expires_at >= now`), client and valid policy are all present |
| DeviceConsent.Repository.Get | crates/handlers/src/oauth2/device/consent.rs:41-124 | the same checks as `post`, else the consent page for the grant; nothing changes |
| DeviceConsent.Repository.Post | crates/handlers/src/oauth2/device/consent.rs:126-238 | response and new grants equal the specification; clients unchanged |
| DeviceConsent.NoSessionRedirects | crates/handlers/src/oauth2/device/consent.rs:148-151 | without a session the grants are untouched and the answer is the login redirect |
| DeviceConsent.ExpiryBoundary | crates/handlers/src/oauth2/device/consent.rs:164-166 | `expires_at < now` is an error before policy or transition; `expires_at == now` still proceeds |
| DeviceConsent.PolicyBlocks | crates/handlers/src/oauth2/device/consent.rs:187-199 | a policy violation shows the violation page and changes nothing |
| DeviceConsent.PostChangesOnlyPendingGrant | crates/handlers/src/oauth2/device/consent.rs:201-226 | only the targeted grant can change, and only while pending |
| DeviceConsent.ResubmissionIdempotent | crates/handlers/src/oauth2/device/consent.rs:214-224 | resubmitting the form, with either action, returns the same page and changes nothing |
| DeviceConsent.GetMatchesPostChecks | crates/handlers/src/oauth2/device/consent.rs:54-112 | whenever the page would stop early, the form stops with the same answer and no change |
| Tchap.CapWordSpec | crates/tchap/src/lib.rs:31-46 | capitalising a word keeps its length and upper-cases exactly the first character and each character after a `-` |
| Tchap.CapSplitsIntoWords | crates/tchap/src/lib.rs:22-52 | `cap("") == ""`, and the words of `cap(name)` are the capitalised words of `name` |
| Tchap.CapIdempotent | crates/tchap/src/lib.rs:22-52 | capitalising twice is capitalising once |
| Tchap.CapWordIdempotent | crates/tchap/src/lib.rs:31-46 | the same for one whitespace-free word |
| Tchap.CapWordKeepsClasses | crates/tchap/src/lib.rs:31-46 | a non-empty word without whitespace stays so after capitalisation |
| Tchap.SplitWhitespaceWords | crates/tchap/src/lib.rs:29-30 | `split_whitespace` yields non-empty parts free of whitespace |
| Tchap.SplitWhitespaceJoin | crates/tchap/src/lib.rs:29-49 | splitting words joined by single spaces gives the words back |
| Tchap.EmailToMxidLocalpart | crates/tchap/src/lib.rs:71-80 | the result contains only `a-z0-9_-./=` and is no longer than the address |
| Tchap.LocalpartKeepsAllowed | crates/tchap/src/lib.rs:71-80 | an address made only of allowed characters is its own localpart |
| Tchap.LocalpartAppend | crates/tchap/src/lib.rs:71-80 | the localpart is built character by character: the localpart of `a + b` is the localpart of `a` followed by that of `b` |
| Tchap.LocalpartChar | crates/tchap/src/lib.rs:75-79 | one character: `@` becomes `-`; any other is lower-cased and kept iff it is in `a-z0-9_-./=`. With LocalpartAppend this fixes the result for every address |
| Tchap.LocalpartIdempotent | crates/tchap/src/lib.rs:71-80 | the localpart of a localpart is itself |
| Tchap.LocalpartIgnoresCase | crates/tchap/src/lib.rs:76 | lower-casing the address first does not change the localpart |
| Tchap.EmailToDisplayName | crates/tchap/src/lib.rs:100-106 | the result is empty iff the address does not have exactly one `@` |
| Tchap.OrgRules | crates/tchap/src/lib.rs:112-131 | `…matrix.org` → "Tchap Admin"; `…x.gouv.fr` → `x`; bare `gouv.fr` → "gouv"; otherwise the second-level label; fewer than two labels → "" |
| Tchap.DisplayNameOf | crates/tchap/src/lib.rs:100-135 | `user@labels` is displayed as `cap(user with dots as spaces) [cap(org)]` |
| MatrixIds.LocalpartOf | crates/syn2mas/src/migration.rs:231-234 | a localpart found in a Matrix ID rebuilds that ID |
| MatrixIds.LocalpartOfMxid | crates/syn2mas/src/migration.rs:231-234 | the localpart of `@l:server` is `l` |
| MatrixIds.MxidInjective | crates/matrix/src/mock.rs:66 | distinct localparts give distinct Matrix IDs on one server |
| MatrixMock.Provision | crates/matrix/src/mock.rs:76-108 | fails iff the user exists with another `sub`, changing nothing; returns "inserted" iff the user was absent; the user set grows by this Matrix ID only; other users unchanged |
| MatrixMock.Query | crates/matrix/src/mock.rs:65-74 | fails iff the user is unknown; otherwise returns its display name, avatar and deactivated flag |
| MatrixMock.AddDevice | crates/matrix/src/mock.rs:120-131 | unknown user fails; otherwise only this user's device set gains the device |
| MatrixMock.RemoveDevice | crates/matrix/src/mock.rs:146-152 | unknown user fails; otherwise only this user's device set loses the device |
| MatrixMock.ReplaceDevices | crates/matrix/src/mock.rs:154-164 | unknown user fails; otherwise only this user's device set is replaced |
| MatrixMock.CheckDevice | crates/matrix/src/mock.rs:133-144 | Ok iff the user exists and has the device; `UserNotFound` iff the user is unknown |
| MatrixMock.Deactivate | crates/matrix/src/mock.rs:166-179 | devices cleared, emails removed, deactivated; avatar and display name removed iff erasing; sub and reset flag kept |
| MatrixMock.Reactivate | crates/matrix/src/mock.rs:181-188 | only the deactivated flag is cleared |
| MatrixMock.SetDisplayname | crates/matrix/src/mock.rs:190-208 | only the display name is set or unset |
| MatrixMock.AllowReset | crates/matrix/src/mock.rs:210-216 | only the cross-signing-reset flag is set |
| MatrixMock.HomeserverConnection.constructor | crates/matrix/src/mock.rs:39-48 | no users and no reserved localparts |
| MatrixMock.HomeserverConnection.ReserveLocalpart | crates/matrix/src/mock.rs:50-52 | the localpart is added to the reserved set; users unchanged |
| MatrixMock.HomeserverConnection.VerifyToken | crates/matrix/src/mock.rs:61-63 | accepted iff the token is `mock_homeserver_bearer_token` |
| MatrixMock.HomeserverConnection.QueryUser | crates/matrix/src/mock.rs:65-74 | the query of the user `@localpart:homeserver` |
| MatrixMock.HomeserverConnection.ProvisionUser | crates/matrix/src/mock.rs:76-108 | result and users equal the provisioning specification; users unchanged on error |
| MatrixMock.HomeserverConnection.IsLocalpartAvailable | crates/matrix/src/mock.rs:110-118 | available iff neither reserved nor taken |
| MatrixMock.HomeserverConnection.UpsertDevice | crates/matrix/src/mock.rs:120-131 | outcome and users as `AddDevice` |
| MatrixMock.HomeserverConnection.UpdateDeviceDisplayName | crates/matrix/src/mock.rs:133-144 | fails iff the user or the device is unknown; nothing changes |
| MatrixMock.HomeserverConnection.DeleteDevice | crates/matrix/src/mock.rs:146-152 | outcome and users as `RemoveDevice` |
| MatrixMock.HomeserverConnection.SyncDevices | crates/matrix/src/mock.rs:154-164 | outcome and users as `ReplaceDevices` |
| MatrixMock.HomeserverConnection.DeleteUser | crates/matrix/src/mock.rs:166-179 | outcome and users as `Deactivate` |
| MatrixMock.HomeserverConnection.ReactivateUser | crates/matrix/src/mock.rs:181-188 | outcome and users as `Reactivate` |
| MatrixMock.HomeserverConnection.SetDisplayName | crates/matrix/src/mock.rs:190-200 | outcome and users as setting the display name |
| MatrixMock.HomeserverConnection.UnsetDisplayName | crates/matrix/src/mock.rs:202-208 | outcome and users as unsetting the display name |
| MatrixMock.HomeserverConnection.AllowCrossSigningReset | crates/matrix/src/mock.rs:210-216 | outcome and users as `AllowReset` |
| MatrixMock.ProvisionIdempotent | crates/matrix/src/mock.rs:76-108 | provisioning the same request again changes nothing and reports "not inserted" |
| MatrixMock.ProvisionThenQuery | crates/matrix/src/mock.rs:76-108 | after provisioning, a query shows the requested display name and avatar changes applied |
| MatrixMock.ProvisionTakesLocalpart | crates/matrix/src/mock.rs:76-118 | a provisioned localpart is no longer available; other localparts' availability is unchanged |
| MatrixMock.UpsertDeviceIdempotent | crates/matrix/src/mock.rs:120-131 | adding a device twice is adding it once |
| MatrixMock.DeleteAbsentDevice | crates/matrix/src/mock.rs:146-152 | deleting an absent device of a known user changes nothing |
| MatrixMock.UpsertThenDelete | crates/matrix/src/mock.rs:120-152 | adding then deleting a device leaves the other devices |
| MatrixMock.SetThenQuery | crates/matrix/src/mock.rs:190-208 | a query (lines 65-74) returns the display name just set or unset |
| MatrixMock.DeleteThenReactivate | crates/matrix/src/mock.rs:166-188 | reactivation after deletion restores the flag only: devices and emails stay gone, profile kept iff not erased |
| MatrixMock.UnknownUserUnchanged | crates/matrix/src/mock.rs:120-216 | every per-user operation on an unknown user fails with `UserNotFound` |
| PolicyModel.ParseAsStr | crates/policy/src/model.rs:57-70 | every code's wire name parses back to the code |
| PolicyModel.AsStrInjective | crates/policy/src/model.rs:57-70 | distinct codes have distinct wire names |
| PolicyModel.ParseOnlyWireNames | crates/policy/src/model.rs:57-70 | a string parses iff it is some code's wire name |
| PolicyModel.Display | crates/policy/src/model.rs:89-102 | the loop with its `first` flag writes the messages joined by `", "` |
| PolicyModel.DisplayEmptyIff | crates/policy/src/model.rs:89-109 | the rendering is empty iff the result is valid (no violations) or its only violation has an empty message |
| PolicyModel.DisplayListsMessages | crates/policy/src/model.rs:92-98 | each violation's message occurs in the rendering at its offset |
| AdminUsersList.StatusRoundTrip | crates/handlers/src/admin/v1/users/list.rs:30-44 | the rendered status parses back (`active`, `locked`) |
| AdminUsersList.Display | crates/handlers/src/admin/v1/users/list.rs:66-82 | the two `if`s with their `sep` write `?filter[admin]=…&filter[status]=…` for the present fields; empty iff no filter is set |
| AdminUsersList.PaginationQueryRoundTrip | crates/handlers/src/admin/v1/users/list.rs:46-82 | parsing the rendered query string gives the parameters back |
| AdminUsersList.ApplyParams | crates/handlers/src/admin/v1/users/list.rs:134-146 | `admin` true/false selects can/cannot-request-admin, `status` active/locked selects the state; absent fields leave the filter alone |
| AdminUsersList.ApplyParamsInjective | crates/handlers/src/admin/v1/users/list.rs:134-146 | different parameters give different storage filters |
| AdminUsersList.Status | crates/handlers/src/admin/v1/users/list.rs:96-106 | 400 iff the filter was invalid, 500 iff internal |
| Jose.ParseUsageName | crates/iana-codegen/src/jose.rs:14-22 | usage names parse back |
| Jose.Key | crates/iana-codegen/src/jose.rs:74-104 | every key is one of the entry's declared sections; the single-section registries (lines 136-138, 168-170, 243-245, 273-275) and the curves (209-215) always have a key; every registry but the algorithms always has a key; `Jwk` usage has none; `enc` usage is `JsonWebEncryptionEnc` |
| Jose.AlgClassification | crates/iana-codegen/src/jose.rs:76-99 | an `alg` row is a signature alg iff its reference names a signature section, an encryption alg iff not and it names an encryption one, and has no key otherwise |
| Jose.CurveClassification | crates/iana-codegen/src/jose.rs:209-215 | a curve is EC iff named `P-…` or `secp256k1`, OKP otherwise |
| Jose.SignatureStable | crates/iana-codegen/src/jose.rs:79-87 | adding text around a signature reference keeps it a signature alg |
| Migration.FlagsOf | crates/syn2mas/src/migration.rs:170-179 | each flag bit (lines 71-92) is set iff its Synapse column (admin, deactivated, guest) is true |
| Migration.ExtractLocalpart | crates/syn2mas/src/migration.rs:671-675 | an extracted localpart rebuilds the user ID on this server |
| Migration.TransformUser | crates/syn2mas/src/migration.rs:666-708 | `locked_at` is `Some(creation_ts)` iff deactivated; `can_request_admin` is admin; `is_guest` copied; a password row iff a hash, pointing to the new user; its id differs from the user's because both come from the model's counter |
| Migration.SessionFor | crates/syn2mas/src/migration.rs:405-410 | an existing `(user, device)` entry is returned and nothing changes; otherwise a new id is drawn and recorded (also lines 504-512, 617-620) |
| Migration.FoldStopsAtError | crates/syn2mas/src/migration.rs:165-199 | once a row fails, the whole table fails with that error |
| Migration.EveryStepKeepsSessions | crates/syn2mas/src/migration.rs:368-664 | no row of any table overwrites or removes a session entry |
| Migration.FoldKeepsSessions | crates/syn2mas/src/migration.rs:472-556 | the same over a whole table |
| Migration.MigrateKeepsSessions | crates/syn2mas/src/migration.rs:128-153 | the same over the whole migration |
| Migration.UserStepRecordsUser | crates/syn2mas/src/migration.rs:165-199 | a user row writes one MAS user, records its localpart with that id and flags, and writes a password iff it has a hash |
| Migration.ThreepidDestination | crates/syn2mas/src/migration.rs:245-274 | a migrated user's threepid (whatever the user's flags) goes to emails iff its medium is `email`, else to unsupported threepids |
| Migration.ExternalIdLinks | crates/syn2mas/src/migration.rs:323-344 | fails with `MissingAuthProviderMapping` iff the provider is unmapped; otherwise links the mapped provider, created at the user's ULID time |
| Migration.UnknownUserRows | crates/syn2mas/src/migration.rs:231-243 | a row of a user not migrated is skipped iff the localpart starts with `_`, else fails naming its table (the same block at lines 309-321, 387-399, 481-493, 593-605) |
| Migration.InactiveUsersSkipped | crates/syn2mas/src/migration.rs:401-403 | device and token rows of deactivated or guest users change nothing (also lines 495-497, 607-609) |
| Migration.AccessTokenUsesDeviceSession | crates/syn2mas/src/migration.rs:504-512 | a token with a device is attached to its pair's session, which is recorded (reused if present) |
| Migration.TokenPairUsesDeviceSession | crates/syn2mas/src/migration.rs:617-653 | both tokens of a pair are attached to the device's session; the refresh token points to the new access token |
| Migration.DeviceUsesDeviceSession | crates/syn2mas/src/migration.rs:405-444 | a device becomes a compat session under its pair's id, with the device id and the admin flag |
| Migration.TokenAndDeviceShareSession | crates/syn2mas/src/migration.rs:504-512 | a device's token, then anything keeping sessions, then the device: the device's session has the token's session id |
| Migration.DevicelessTokenSession | crates/syn2mas/src/migration.rs:513-537 | a deviceless token gets a new deviceless, non-admin session and adds no device-table entry |
| Migration.Migrator.constructor | crates/syn2mas/src/migration.rs:138-143 | empty tables, nothing written |
| Migration.Migrator.NextId | crates/syn2mas/src/migration.rs:334 | a new id with the given timestamp; only the id source advances |
| Migration.Migrator.SessionEntry | crates/syn2mas/src/migration.rs:405-410 | the entry-or-insert step equals `SessionFor` |
| Migration.Migrator.MigrateUsers | crates/syn2mas/src/migration.rs:156-209 | the loop's outcome and state equal the fold of the user step |
| Migration.Migrator.MigrateThreepids | crates/syn2mas/src/migration.rs:212-287 | the same for threepids |
| Migration.Migrator.MigrateExternalIds | crates/syn2mas/src/migration.rs:294-357 | the same for external IDs |
| Migration.Migrator.MigrateUnrefreshableAccessTokens | crates/syn2mas/src/migration.rs:461-566 | the same for access tokens without refresh tokens |
| Migration.Migrator.MigrateRefreshableTokenPairs | crates/syn2mas/src/migration.rs:571-664 | the same for token pairs |
| Migration.Migrator.MigrateDevices | crates/syn2mas/src/migration.rs:368-456 | the same for devices |
| Migration.Migrator.Migrate | crates/syn2mas/src/migration.rs:128-153 | the six tables in the source's order, stopping at the first error, equal the migration specification |

## Left out

- SHA-256 and base64url encoding (PKCE `S256`) are a function parameter, not computed.
- Password hashing and verification are an oracle returning failure, up to date, or an upgraded hash. The rate limiter and the homeserver's `create_device` are oracles too.
- `HomeserverConnection::mxid` and `localpart`, and `FullUserId::extract_localpart`, are not part of this model's source. They are reconstructed as `"@" + localpart + ":" + server` and its inverse.
- `ProvisionRequest` is not part of this model's source. Its `FieldAction` (leave alone, set, clear) for emails, display name and avatar is reconstructed from the mock's `on_emails`, `on_displayname` and `on_avatar_url` callbacks.
- `User::is_valid` is not part of this model's source. It is taken as "neither locked nor deactivated".
- Tchap.Cap, Tchap.EmailToMxidLocalpart: case mapping is ASCII only. Unicode case mapping is left out, including characters that change length, the Kelvin sign, and `İ`. Whitespace splitting uses the full Unicode White_Space set.
- HTTP plumbing is left out: extractors, cookies, CSRF checks, templates, Sentry ids, tracing and activity tracking. Pages are response values.
- Persistence: repositories are in-memory maps and sequences, and `repo.save()` is a commit at the end of a successful handler. Locks (`acquire_lock_for_sync`, `RwLock`) and async are left out.
- ULIDs and random values are parameters or a counter. The counter makes every id in the model distinct; the source draws random ULID bits and relies on them being distinct with high probability, which is not modelled. A ULID's timestamp is kept at full precision, not truncated to milliseconds.
- Migration: the Synapse reader and the MAS writer are sequences of rows. Read and write errors, and `MasWriteBuffer` batching, are not modelled.
- Migration.Migrator.MigrateDevices: a device without a recorded session takes its session time from a `systemNow` parameter. In the source, `Ulid::with_source` reads the system clock.
- Migration.Migrator.MigrateUsers: on an error the state reached is not specified, only the error. The source drops its state.
- Migration.Migrator.MigrateThreepids: the same; on an error only the error is specified.
- Migration.Migrator.MigrateExternalIds: the same; on an error only the error is specified.
- Migration.Migrator.MigrateUnrefreshableAccessTokens: the same; on an error only the error is specified.
- Migration.Migrator.MigrateRefreshableTokenPairs: the same; on an error only the error is specified.
- Migration.Migrator.MigrateDevices: the same; on an error only the error is specified.
- Migration.Migrator.Migrate: the same; on an error only the error is specified, and the later tables are not run.
- AdminUsersList.ParsePair: query-string percent-decoding is left out. Keys and values are matched literally. Unknown keys are ignored and a repeated filter key is an error, as serde's duplicate-field check does. Pagination parameters are not modelled.
- DeviceConsent: the policy evaluation is an input (its result), not computed. The grant's scope and the client's details are not modelled.
- Jose: only `key()` is modelled. Names, descriptions and CSV loading are code generation plumbing.
- CompatLogin: the user agent is a string, not a parsed `UserAgent`. The error log when an exchanged token is reused more than 30 s later is left out.
