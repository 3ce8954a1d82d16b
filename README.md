# HAProxy Dataplane Terraform provider: a verified model of its core

This project models, in Dafny, the core of a Terraform provider that manages an HAProxy
load balancer through the HAProxy Dataplane API. The core has three parts.

- **The HTTP client** (`internal/haproxy`, with a legacy copy in `pkg/haproxy`):
  - how `NewClient` forms the base URL;
  - which headers every request carries (`Accept`, `Authorization` with the Basic credentials);
  - how `sendRequest` turns a transport error, an error status, a 204 or a decodable
    body into the gateway's result.
- **The gateways**: one client method per Dataplane call. Each builds its URL by plain
  string concatenation, and the model keeps every quirk literally:
  - the configuration query has no `=` after `transaction_id`;
  - the ACL query ends in `&parent_type` with no `=`;
  - the frontend URLs carry `&transaction_id=` with no `?`;
  - the map-entry URLs append `&force_sync=`.
- **Three Terraform resources**:
  - `haproxy_acl`: only Create does anything. It retries an attempt. Each attempt reads
    the configuration version, opens a transaction at that version, lists the parent's
    ACLs, refuses a duplicate name, creates the ACL and commits.
  - `haproxy_frontend`: Create, Update and Delete each build the frontend from the
    resource data and retry the same envelope: open a transaction, stage one frontend
    operation, commit. Read fetches the committed frontend and writes its attributes back.
  - `haproxy_maps`: one entry of a runtime map, with no transaction. The importer parses
    ids of the form `map/<map>/entrie/<key>` with three regular expressions.

The JSON key mapping of the records (`models.ACL`, `models.Frontend` with its three
nested groups, `MapEntrie`, `Configuration`) is modelled with Go's `omitempty` rule. Every
encoding is proved to round-trip.

The program's form is kept:
- The gateways, the encoders, `sendRequest` and the import-id parsing are pure, so they
  are Dafny functions with lemmas.
- The resources change things step by step, so they are methods.
  - They act on a `Dataplane.Server` object, a class whose methods update its fields.
  - They also act on a `Terraform.ResourceData` object, with its `id` and its attributes.
  - Each method is proved to leave exactly the state a pure function of the old state
    gives: an attempt function, a retry, or a map-entry flow.
  - The properties are lemmas about those functions.

The Dataplane API server does not belong to the repository. `Dataplane` therefore states
the server behaviour the properties rely on:
- A transaction is opened at a version and collects its staged changes.
- A commit succeeds exactly when the transaction is open at the current version, and then
  installs the transaction's view.
- A scripted sequence of faults lets any call fail, or lets a concurrent writer commit
  first.

Every property about the resources holds for every fault script, so failures, retries and
races that bump the version are all covered. A concurrent writer only raises the version:
a race in which it also changes the ACLs or frontends is not modelled.

Where the resources and the gateways disagree, the model follows the call sites.
- internal/haproxy/configuration.go:10 declares `GetConfiguration(transactionId)`, but
  the resources call it with no argument.
- internal/haproxy/frontend.go:11 declares `GetFrontend(transactionId, frontend)`, but
  the frontend Read calls it with the frontend only.
- The model's calls follow the resources: the configuration is read outside any
  transaction, and the frontend read sees the committed frontend.
- The request builders follow the gateways' declared signatures.

Behaviour of the source kept as written:
- `buildFrontendFromResourceParameters` looks up `forwardFor`, a key the schema does not
  declare (it declares `forwardfor`).
- It decodes `monitor_fail` and `stats_options` into locals it never copies, so a built
  frontend's three groups are always zero.
- When one of those two attributes is set, it applies `v.(map[string]interface{})` to
  what the SDK holds for a set-typed attribute (a `*schema.Set`), which panics. The model
  has this as `Panicked`.
- The map Read and Update discard the diagnostic of a failed get and then read through the
  nil result. The model has this as a nil-dereference panic.
- A successful Create reports a failed read-back as "Cannot insert <key>. Space is not
  allowed."
- The importer sets the id and `map` before it checks that the entry exists.
- The importer takes the entry name with `entrie/(.*?)$` over the whole id, so for a map
  name ending in "entrie" it takes "entrie/" + key (see "## Findings").
- The legacy client always uses plain HTTP on port 5555. Its `sendRequest` has no
  nil-target shortcut.

## Model

| member | source | states |
|---|---|---|
| Transport.NewClient | internal/haproxy/haproxy.go:18-31 | credentials kept; the base URL starts with `http://` exactly when insecure and with `https://` exactly otherwise, and always ends in `/v2` |
| Transport.NewClientBaseUrlParses | internal/haproxy/haproxy.go:19-29 | the base URL reads back as the insecure flag and the server address it was built from |
| Transport.LegacyNewClient | pkg/haproxy/haproxy.go:18-27 | the legacy base URL is always `http://` and ends in `:5555/v2` |
| Transport.LegacyClientIsInsecurePort5555 | pkg/haproxy/haproxy.go:18-27 | the legacy client equals the internal insecure client of the address with `:5555` appended |
| Transport.SentHeaders | internal/haproxy/haproxy.go:39-40 | the gateway's headers, plus `Accept` with the JSON charset value and `Authorization` with "Basic " and the encoded credentials, replacing earlier values; no other header touched |
| Transport.AuthorizationCarriesCredentials | internal/haproxy/haproxy.go:40 | the encoder is handed a user-pass that splits back, at its first colon, into the username and the password |
| Transport.SendRequest | internal/haproxy/haproxy.go:38-75 | a transport error is returned as is; a status of 300 or more fails with the error body's message, or "unknown error, status code: N"; success without decoding exactly on 204 or a nil target; decoding otherwise, and a decoder error is returned |
| Transport.LegacySendRequest | pkg/haproxy/haproxy.go:34-71 | as the internal copy but with no nil-target case: every success status but 204 decodes |
| Transport.LegacyAgreesWithTarget | pkg/haproxy/haproxy.go:34-71 | with an out-parameter, both copies classify every exchange alike |
| Transport.LegacyDiffersWithoutTarget | internal/haproxy/haproxy.go:65-67 | with a nil target they differ exactly on success statuses other than 204, and the legacy copy fails there exactly when the body does not decode |
| Transport.ErrorStatusFails | internal/haproxy/haproxy.go:52-59 | an error status fails in both copies whatever the target; without a message the text carries the status, which parses back |
| Utils.SplitUserPass | internal/haproxy/utils.go:9-12 | the split is at the first colon and concatenates back to the input; no split exactly when there is no colon |
| Utils.BasicAuthInputSplits | internal/haproxy/utils.go:9-12 | the text `basicAuth` encodes (user, colon, password) splits back into a colon-free username and any password |
| Utils.MatchesImportFormat | internal/provider/resource_maps.go:68 | true exactly when `map/(.*?)/entrie/(.*?)` matches somewhere: "map/", a newline-free name, then "/entrie/" |
| Utils.ExtractMapName | internal/haproxy/utils.go:18-24 | with `map/(.*?)/`: group 1 of the leftmost match with the shortest lazy group, or the whole input when nothing matches |
| Utils.ExtractEntrieName | internal/haproxy/utils.go:18-24 | with `entrie/(.*?)$`: everything after the leftmost "entrie/" followed by a newline-free tail, or the whole input when none |
| Utils.ImportIdMatches | internal/provider/resource_maps.go:68-73 | an id built from a well-formed map name and key matches the format, and its map name is extracted back |
| Utils.ImportIdRoundTrip | internal/provider/resource_maps.go:68-74 | for a map name not ending in "entrie", the as-written import gives back the map name and the key, even for keys with '/' |
| Utils.ExtractEntrieNameAfterEntrieSuffix | internal/provider/resource_maps.go:74 | for a map name ending in "entrie" the as-written extraction yields "entrie/" + key instead of the key |
| Utils.ExtractEntrieNameCounterexample | internal/provider/resource_maps.go:74 | the id "map/xentrie/entrie/k" passes the format check but extracts the entry "entrie/k"; the intended extraction gives "k" |
| Utils.IntendedEntrieName | internal/provider/resource_maps.go:74 | the entry name after the first "entrie/" that follows the map-name match; falls back as the original does when no map name matches |
| Utils.IntendedImportIdRoundTrip | internal/provider/resource_maps.go:68-76 | with the intended extraction, every well-formed map name and key round-trips through the import id |
| Utils.IntendedAgreesWithExtract | internal/provider/resource_maps.go:74 | where the as-written extraction works, the intended one gives the same name |
| Text.Itoa | internal/haproxy/transactions.go:11 | the rendering starts with '-' exactly for negative numbers and is otherwise all digits |
| Text.ItoaRoundTrip | internal/haproxy/transactions.go:11 | `strconv.Itoa` loses nothing: its output parses back to the number |
| Text.ItoaInjective | internal/haproxy/acl.go:13 | distinct numbers render distinctly |
| Text.FormatBoolRoundTrip | internal/haproxy/maps.go:33 | the force_sync flag's rendering parses back to the flag |
| JsonValue.OmitEmptyKeys | internal/haproxy/maps.go:12-13 | `omitempty` only drops members |
| JsonValue.StringKept | internal/haproxy/models/structure_frontend.go:4 | an `omitempty` string member reads back as its value and is present exactly when non-empty |
| JsonValue.IntKept | internal/haproxy/models/structure_frontend.go:6 | an `omitempty` int member reads back and is present exactly when non-zero |
| JsonValue.BoolKept | internal/haproxy/models/structure_frontend.go:5 | an `omitempty` bool member reads back and is present exactly when true |
| JsonValue.ObjectKept | internal/haproxy/models/structure_frontend.go:11 | a struct member under `omitempty` is always present and reads back |
| Models.AclJson | internal/haproxy/models/structure_acl.go:3-8 | an ACL serialises to exactly `acl_name`, `criterion`, `index`, `value` |
| Models.AclRoundTrip | internal/haproxy/models/structure_acl.go:3-8 | decoding the serialised ACL gives it back |
| Models.MapEntrieMembers | internal/haproxy/maps.go:11-15 | `value` always present; `id` and `key` present exactly when non-empty; no other key |
| Models.MapEntrieRoundTrip | internal/haproxy/maps.go:11-15 | decoding the serialised map entry gives it back |
| Models.ConfigurationJson | internal/haproxy/configuration.go:5-8 | the configuration serialises to exactly `_version` and `data` |
| Models.ConfigurationRoundTrip | internal/haproxy/configuration.go:5-8 | decoding the serialised configuration gives it back |
| Models.ForwardforMembers | internal/haproxy/models/structure_frontend.go:34-39 | `enabled` always present; `except`, `header`, `ifnone` exactly when non-zero; round-trips |
| Models.MonitorFailMembers | internal/haproxy/models/structure_frontend.go:41-44 | exactly `cond` and `cond_test`; round-trips |
| Models.StatsOptionsMembers | internal/haproxy/models/structure_frontend.go:46-55 | only the eight declared keys (with `stats_uri_prefix` for `StatsUrilPrefix`); round-trips |
| Models.FrontendMember_forwardfor | internal/haproxy/models/structure_frontend.go:11 | the `forwardfor` group is always emitted, `omitempty` notwithstanding, and reads back |
| Models.FrontendMember_monitorFail | internal/haproxy/models/structure_frontend.go:25 | the `monitor_fail` group is always emitted and reads back |
| Models.FrontendMember_statsOptions | internal/haproxy/models/structure_frontend.go:28 | the `stats_options` group is always emitted and reads back |
| Models.FrontendRoundTrip | internal/haproxy/models/structure_frontend.go:3-55 | decoding the serialised frontend gives back every one of its 28 fields |
| Models.FrontendFieldsKeys | internal/haproxy/models/structure_frontend.go:3-32 | the members before `omitempty` are exactly the 27 declared keys other than `name` |
| Models.FrontendKeys | internal/haproxy/models/structure_frontend.go:3-32 | `name` is always present with the frontend's name, and no undeclared key appears |
| Models.UnderscoreSpellingsUndeclared | internal/haproxy/models/structure_frontend.go:12-13 | `http_buffer_request` and `http_use_htx` are not declared keys |
| Models.FrontendHyphenatedKeys | internal/haproxy/models/structure_frontend.go:12-13 | the two fields travel under the hyphenated keys; the underscore spellings never appear |
| Gateways.CreateTransactionRequest | internal/haproxy/transactions.go:10-23 | POST to `/services/haproxy/transaction?version=` + the decimal version, no body, with an out-parameter |
| Gateways.CreateTransactionVersionParses | internal/haproxy/transactions.go:11 | the version reads back from the query |
| Gateways.CreateTransactionInjective | internal/haproxy/transactions.go:11 | distinct versions give distinct requests |
| Dataplane.CreateTransactionFresh | internal/provider/resource_acl.go:86-89 | the server's assumed behaviour: a transaction just created has an id no open transaction has, and every open id stays one the server issued |
| Dataplane.StageKeepsIssuedIds | internal/provider/resource_acl.go:102-105 | staging keeps every open id one the server issued |
| Dataplane.CommitKeepsIssuedIds | internal/provider/resource_acl.go:107-110 | committing keeps every open id one the server issued |
| Gateways.CommitTransactionRequest | internal/haproxy/transactions.go:25-38 | PUT to the transaction path, a '/' and the id, no body |
| Gateways.CommitTransactionInjective | internal/haproxy/transactions.go:26 | distinct ids give distinct commit requests |
| Gateways.GetConfigurationRequest | internal/haproxy/configuration.go:10-23 | GET `/services/haproxy/configuration/raw?transaction_id` followed directly by the id |
| Gateways.QueryAfter | internal/haproxy/configuration.go:11 | the query of a URL is what follows its first '?' |
| Gateways.GetConfigurationQueryHasNoAssignment | internal/haproxy/configuration.go:11 | the query is "transaction_id" + id and holds an '=' only if the id does: the id is not sent as a value |
| Gateways.AclQueryLastField | internal/haproxy/acl.go:13 | the ACL query ends in `&parent_type` followed directly by the type |
| Gateways.GetAclRequest | internal/haproxy/acl.go:12-25 | GET the ACL's index URL with the query, no body |
| Gateways.CreateAclRequest | internal/haproxy/acl.go:27-43 | POST to the collection with no index segment, the ACL's JSON and a JSON Content-Type |
| Gateways.UpdateAclRequest | internal/haproxy/acl.go:45-61 | PUT to the index URL with the ACL's JSON and a JSON Content-Type |
| Gateways.DeleteAclRequest | internal/haproxy/acl.go:63-75 | DELETE to the index URL with the ACL's JSON as body, no Content-Type and a nil out-parameter |
| Gateways.AclUrlIndexParses | internal/haproxy/acl.go:13 | the ACL's index reads back from its path segment |
| Gateways.AclBodyRoundTrip | internal/haproxy/acl.go:29 | Create and Update send the same four-member body, which decodes to the ACL |
| Gateways.GetFrontendRequest | internal/haproxy/frontend.go:11-24 | GET frontends/ + name + `&transaction_id=` + id |
| Gateways.CreateFrontendRequest | internal/haproxy/frontend.go:26-42 | POST to `frontends&transaction_id=` + id with the frontend's JSON |
| Gateways.UpdateFrontendRequest | internal/haproxy/frontend.go:44-60 | PUT to the frontend URL with the frontend's JSON |
| Gateways.DeleteFrontendRequest | internal/haproxy/frontend.go:62-74 | DELETE the frontend URL, no body, nil out-parameter |
| Gateways.FrontendUrlsHaveNoQuery | internal/haproxy/frontend.go:12 | without a '?' in the parts, the frontend URLs have no query: the id travels in the path |
| Gateways.NoQueryWithoutMark | internal/haproxy/frontend.go:27 | a URL without '?' has an empty query |
| Gateways.FrontendBodyRoundTrip | internal/haproxy/frontend.go:28 | Create and Update send the same body, which decodes to the frontend |
| Gateways.ForceSyncParses | internal/haproxy/maps.go:33 | the `&force_sync=` suffix reads back as the flag |
| Gateways.GetMapEntrieRequest | internal/haproxy/maps.go:17-30 | GET maps_entries/ + escaped key + `?map=` + map name, no force_sync |
| Gateways.CreateMapEntrieRequest | internal/haproxy/maps.go:32-48 | POST to `maps_entries/?map=` + map + force_sync with the entry's JSON |
| Gateways.UpdateMapEntrieRequest | internal/haproxy/maps.go:50-69 | PUT the entry's URL + force_sync with a body holding only the value |
| Gateways.DeleteMapEntrieRequest | internal/haproxy/maps.go:71-86 | DELETE the entry's URL + force_sync, no body, a non-nil out-parameter |
| Gateways.UpdateMapEntrieBodyIsValueOnly | internal/haproxy/maps.go:52-55 | the update body is exactly `{"value": ...}` and decodes to an entry with empty id and key |
| Gateways.CreateMapEntrieBodyRoundTrip | internal/haproxy/maps.go:34 | the create body decodes to the entry and carries `key` exactly when it is non-empty |
| Gateways.MapEntrieUrlsAgree | internal/haproxy/maps.go:18-72 | Update and Delete address Get's URL, followed by the force_sync suffix |
| Gateways.Finish | internal/haproxy/transactions.go:17-22 | the gateway errs exactly when `sendRequest` does, with its message; otherwise the decoded or the zero record |
| Gateways.FinishError | internal/haproxy/frontend.go:69-73 | an error-only gateway returns `sendRequest`'s error exactly |
| Gateways.GetAclResult | internal/haproxy/acl.go:19-24 | GetAcl errs exactly when `sendRequest` does and otherwise returns the wrapper's `Data` |
| Gateways.FinishAfterSend | internal/haproxy/haproxy.go:52-63 | for every exchange, an error status becomes the gateway's error, a 204 the zero record, and a decoded record appears only after a decodable success |
| Gateways.NilTargetDeleteFails | internal/haproxy/acl.go:70-73 | a Delete with a nil target fails exactly on a transport error or an error status |
| Retrying.RetryFrom | internal/provider/resource_acl.go:80-114 | a success comes after the failures so far and within the attempts left; giving up yields one error per attempt, the earlier ones first |
| Retrying.RetryBounds | internal/provider/resource_acl.go:80-114 | a success takes between 1 and n attempts; a failure carries exactly n errors |
| Retrying.FirstSuccessStops | internal/provider/resource_frontend.go:295-316 | a first attempt that succeeds is the only one made |
| Retrying.RetryAfterFailure | internal/provider/resource_frontend.go:295-316 | a failed attempt is followed by a retry with one attempt fewer from the state it left, and its error is prepended |
| Retrying.RetryEstablishes | internal/provider/resource_frontend.go:329-349 | a property kept by failed attempts and reached by a successful one holds after the whole retry |
| Envelope.Open | internal/provider/resource_frontend.go:297-304 | the opening method does exactly what `OpenTransaction` says |
| Envelope.OpenTransactionFollows | internal/provider/resource_acl.go:82-89 | the opening calls GetConfiguration, then CreateTransaction with the version read; on success holds a transaction at that version seeing exactly the committed objects |
| Envelope.OpenTransactionStops | internal/provider/resource_acl.go:82-89 | the opening stops at the first error: every call but the last succeeded, and the error returned is the last call's |
| AclResource.FindDuplicate | internal/provider/resource_acl.go:96-100 | the loop finds a duplicate exactly when some listed ACL has the new ACL's name |
| AclResource.Attempt | internal/provider/resource_acl.go:81-113 | the attempt's error and new server state are `AclAttempt`'s |
| AclResource.Run | internal/provider/resource_acl.go:80-114 | the retry loop leaves exactly the outcome and state of `Retry` over the attempt |
| AclResource.Create | internal/provider/resource_acl.go:70-122 | the server is left as the retry leaves it; on success the id is the ACL's name with no diagnostics, on failure the id is kept and one diagnostic carries every attempt's error; the attributes are untouched |
| AclResource.Read | internal/provider/resource_acl.go:58-60 | reports nothing |
| AclResource.Update | internal/provider/resource_acl.go:62-64 | reports nothing |
| AclResource.Delete | internal/provider/resource_acl.go:66-68 | reports nothing |
| AclResource.OpenAndListFollows | internal/provider/resource_acl.go:82-94 | the first phase makes a non-empty prefix of its three calls in order, all three on success, and then lists the parent's committed ACLs |
| AclResource.OpenAndListStops | internal/provider/resource_acl.go:82-94 | the first phase stops at the first error: every call but the last succeeded, and the error returned is the last call's |
| AclResource.StageAndCommitFollows | internal/provider/resource_acl.go:102-111 | staging comes first, and the commit is made only when staging succeeded |
| AclResource.StageAndCommitStops | internal/provider/resource_acl.go:102-111 | the last phase stops at the first error, and the error returned is the last call's |
| AclResource.AttemptFollowsProtocol | internal/provider/resource_acl.go:81-113 | an attempt appends a non-empty prefix of GetConfiguration, CreateTransaction(version), GetAcls, CreateAcl, Commit on the version it read and the transaction it opened; it is complete exactly when the staging succeeded |
| AclResource.AttemptStops | internal/provider/resource_acl.go:81-113 | any call's error ends the attempt: every call but the last succeeded, and the attempt's error is the last call's, or the duplicate message when the last call was a successful listing |
| AclResource.DuplicateStopsAttempt | internal/provider/resource_acl.go:96-100 | after a successful listing: a taken name stops the attempt with the "Cannot insert ... which already exist in ..." error and commits nothing; a free one goes on to stage the ACL |
| AclResource.AttemptCommits | internal/provider/resource_acl.go:102-111 | a committed attempt found the name free and appended the ACL to its parent's committed list, at a newer version |
| AclResource.FailedAttemptCommitsNothing | internal/provider/resource_acl.go:83-109 | a failed attempt leaves every committed object as it was |
| AclResource.CreateCommitsOnce | internal/provider/resource_acl.go:80-118 | the retry commits the ACL exactly once, to a list that lacked the name, or commits nothing |
| AclResource.DuplicateNeverCommits | internal/provider/resource_acl.go:96-100 | a name already committed under the parent fails every attempt, one error each, and commits nothing |
| AclResource.RetriesStageTheSameAcl | internal/provider/resource_acl.go:74-79 | every ACL staged over all attempts is the one Create read, under the parent it read |
| AclResource.AttemptStagesOnly | internal/provider/resource_acl.go:102 | one attempt stages, if anything, only the ACL and parent it is given, and keeps the log before it |
| FrontendResource.TextField | internal/provider/resource_frontend.go:394-396 | the field is the attribute's string when `GetOk` reports it, "" otherwise |
| FrontendResource.FlagField | internal/provider/resource_frontend.go:398-400 | the field is the attribute's bool when reported, false otherwise |
| FrontendResource.NumberField | internal/provider/resource_frontend.go:402-404 | the field is the attribute's int when reported, 0 otherwise |
| FrontendResource.FieldsMakeFrontend | internal/provider/resource_frontend.go:392-521 | a frontend whose every field is its attribute's lookup, with zero groups, is the frontend of the attributes |
| FrontendResource.BuildFrontend | internal/provider/resource_frontend.go:392-521 | the build panics on a set `forwardFor`, `monitor_fail` or `stats_options` and otherwise yields the frontend of the attributes, with the three groups zero |
| FrontendResource.ForwardForNeverRead | internal/provider/resource_frontend.go:422 | within the schema's keys `forwardFor` is never reported, the forwardfor group is never filled, and the build succeeds exactly when neither `monitor_fail` nor `stats_options` is set |
| FrontendResource.Read | internal/provider/resource_frontend.go:250-289 | on a failed get the error is reported and nothing written; otherwise the 24 attributes of the fetched frontend are written over the old ones; the id is kept |
| FrontendResource.WritesMakeReadAttrs | internal/provider/resource_frontend.go:263-286 | Read's 24 successive writes lay `ReadAttrs` over the attributes |
| FrontendResource.ReadAttrsSkipsTcpLog | internal/provider/resource_frontend.go:263-286 | Read never writes `tcplog` or `stats_options` |
| FrontendResource.ReadAttrsSkipsUniqueId | internal/provider/resource_frontend.go:263-286 | Read never writes `unique_id_format` or `unique_id_header` |
| FrontendResource.ReadThenBuild | internal/provider/resource_frontend.go:263-286 | building from what Read wrote gives back every scalar field but the three Read skips, which keep the old values; the groups come back zero |
| FrontendResource.BuildFromLookups | internal/provider/resource_frontend.go:392-521 | building over attributes overlaid with a frontend's scalar fields under Read's keys gives back those fields, the skipped keys' values from the old attributes, and zero groups |
| FrontendResource.Stage | internal/provider/resource_frontend.go:306-309 | the staging method does exactly what `StageFrontend` says for the operation |
| FrontendResource.Attempt | internal/provider/resource_frontend.go:296-315 | the attempt's error and new state are `FrontendAttempt`'s |
| FrontendResource.Run | internal/provider/resource_frontend.go:295-316 | the retry loop leaves the outcome and state of `Retry` over the attempt |
| FrontendResource.Create | internal/provider/resource_frontend.go:291-323 | a build panic comes before any call; otherwise the retry's state, with the id set to the name only on success and one diagnostic with every error on failure |
| FrontendResource.Update | internal/provider/resource_frontend.go:325-354 | a build panic or the retry's state and diagnostics; the id is never touched |
| FrontendResource.Delete | internal/provider/resource_frontend.go:356-390 | a build panic or the retry's state; the id is cleared only on success |
| FrontendResource.StageFrontendLogs | internal/provider/resource_frontend.go:306-309 | a staging call logs itself and leaves the committed objects alone |
| FrontendResource.StageFrontendInView | internal/provider/resource_frontend.go:306-309 | a staging call that succeeds was admitted by the transaction's view (create: name absent; update, delete: present) and adds its change to it |
| FrontendResource.AttemptFollowsProtocol | internal/provider/resource_frontend.go:296-315 | an attempt appends a non-empty prefix of GetConfiguration, CreateTransaction(version), the staging call, Commit; it is complete exactly when staging succeeded |
| FrontendResource.AttemptStops | internal/provider/resource_frontend.go:295-316 | any call's error ends the attempt: every call but the last succeeded, and the attempt's error is the last call's |
| FrontendResource.AttemptCommits | internal/provider/resource_frontend.go:306-314 | a committed attempt was admitted by the committed objects and applied exactly its change, raising the version |
| FrontendResource.FailedAttemptCommitsNothing | internal/provider/resource_frontend.go:297-314 | a failed attempt leaves the committed objects as they were |
| FrontendResource.OperationCommitsOnce | internal/provider/resource_frontend.go:329-349 | the retry applies the operation once, to admitting committed objects, or not at all |
| FrontendResource.RefusedNeverCommits | internal/provider/resource_frontend.go:361-382 | creating a taken name, or updating or deleting a missing one, fails every attempt, one error each, and commits nothing |
| MapsResource.Import | internal/provider/resource_maps.go:65-85 | the import method does exactly what `ImportFlow` says, with the entry name of the as-written `ExtractEntrieName` |
| MapsResource.ImportRejectsMalformed | internal/provider/resource_maps.go:68-71 | an id that fails the format check is reported with the "invalid format" error before any call, with nothing changed |
| MapsResource.ImportNamedFetches | internal/provider/resource_maps.go:76-84 | once the names are extracted: the id becomes the entry name, `map` the map name, the one call is the get of that entry, no entry changes, and the import succeeds exactly when the call is served and the entry exists |
| MapsResource.ImportOfImportId | internal/provider/resource_maps.go:73-84 | for an id built from a well-formed map name not ending in "entrie" and a key: the id becomes the key, `map` the map name, the one call is the get of that entry, no entry changes, and the import succeeds exactly when the call is served and the entry exists |
| MapsResource.ImportAfterEntrieSuffix | internal/provider/resource_maps.go:73-84 | for a map name ending in "entrie", the as-written import takes "entrie/" + key as the id and asks the server for that entry |
| MapsResource.ImportCounterexample | internal/provider/resource_maps.go:74 | importing `map/xentrie/entrie/k` sets the id "entrie/k"; the corrected importer sets "k" |
| MapsResource.IntendedImportOfImportId | internal/provider/resource_maps.go:68-84 | the corrected importer imports entry `k` of map `m` for every well-formed `map/<m>/entrie/<k>` |
| MapsResource.Read | internal/provider/resource_maps.go:111-123 | the read method does exactly what `ReadFlow` says |
| MapsResource.ReadWritesEntry | internal/provider/resource_maps.go:111-123 | Read returns exactly when the entry exists and the call is served, and then writes the key and value and keeps `map` and `force_sync`; a failed get panics; no entry changes |
| MapsResource.Create | internal/provider/resource_maps.go:87-109 | the create method does exactly what `CreateFlow` says |
| MapsResource.CreateSetsIdLast | internal/provider/resource_maps.go:95-106 | the id is changed only to the planned key; a create error or a failed read-back leaves id and attributes untouched |
| MapsResource.CreateStoresEntry | internal/provider/resource_maps.go:87-109 | a Create without diagnostics leaves the planned value under the planned key, the id as that key, the value in the attributes, and every other entry unchanged |
| MapsResource.FailedReadBackBlamesSpace | internal/provider/resource_maps.go:100-104 | a refused read-back after a successful create is reported as "Cannot insert <key>. Space is not allowed." with the id kept |
| MapsResource.Update | internal/provider/resource_maps.go:125-144 | the update method does exactly what `UpdateFlow` says |
| MapsResource.UpdateSetsValue | internal/provider/resource_maps.go:125-144 | no call unless `value` changed; when it did and Update returns cleanly, the entry holds the planned value, nothing else changed, and the update carried the fetched entry with only its value replaced; id and attributes are untouched |
| MapsResource.Delete | internal/provider/resource_maps.go:146-156 | the delete method does exactly what `DeleteFlow` says |
| MapsResource.DeleteClearsId | internal/provider/resource_maps.go:146-156 | Delete succeeds exactly when the call is served and the entry exists; it then clears the id and removes only that entry; otherwise id and entries stay |

## Left out

- Networking: the HTTP exchange, the 5-minute client timeout and the printing of the status and of "toto" are I/O. The exchange is an input of `Transport.SendRequest`.
- The Base64 encoder of `basicAuth` (Go's standard library): it is a parameter of `Transport.SentHeaders`.
- `replaceSlashInString` is not part of this model. The map gateways take it as the `escape` parameter.
- `encodeUrl` (internal/haproxy/utils.go:14-16) wraps `url.QueryEscape`, and no gateway in the core calls it.
- `ExtractStringWithRegex` is modelled only for the three patterns the core passes it, not for an arbitrary RE2 pattern.
- `http.NewRequest` fails only on a URL it cannot parse. That error reaches the caller like a transport error, so the model folds it into `Transport.TransportError`.
- The Dataplane API server is outside the repository. `Dataplane` states the behaviour the proofs assume:
  - transactions are opened at the given version;
  - a commit succeeds only at the current version;
  - faults come from a script.
- Retrying: the attempt count of `retry.Do` is a parameter, so every count is covered, including the library's default of ten. Its delays between attempts and the wording of its combined error are not modelled: the diagnostic keeps the list of attempt errors.
- The Terraform plugin SDK: `Terraform` models only the resource data, `GetOk`, `Get` with its zero values, `Set`, `SetId` and how a function ends. Left out of it:
  - schema validation, defaults and ForceNew (the attributes are taken as the planned values, with defaults applied);
  - the plan/state lifecycle;
  - `diag.FromErr`'s formatting.
- `Terraform.ResourceData.Set`: a struct value handed to a set-typed attribute (`forwardfor`, `monitor_fail`) is stored as handed over. The SDK's own conversion or rejection of such a value is not modelled.
- FrontendResource.TextOf, FlagOf and NumberOf stand for Go's type assertions on attributes of their schema type. An assertion on a value of another type, which panics in Go, is taken as the zero value, because the schema rules such values out.
- The schema declarations of the three resources, the provider configuration (internal/provider/provider.go) and the stats gateway (internal/haproxy/stats.go) are not part of the core.
- Integer width: Go's `int` is 64-bit, and the model's integers are unbounded. No operation of the core does arithmetic on them, so no wrap-around can arise.
- ImportOfImportId: holds only for map names that do not end in "entrie", because the as-written extraction takes "entrie/" + key for the others; `MapsResource.ImportAfterEntrieSuffix` states what the importer does then.
- JSON member order and whitespace: an object is a map from key to value, because the Dataplane API does not depend on member order.

## Findings

| source | as written | input that shows it | evidently intended | confidence | as-written member | corrected member |
|---|---|---|---|---|---|---|
| internal/provider/resource_maps.go:74 | the entry name is taken with `entrie/(.*?)$` over the whole id, so the leftmost "entrie/" wins, even inside the map name | the id `map/xentrie/entrie/k` passes the format check, and the extracted map is "xentrie" but the extracted entry is "entrie/k" | the entry name is what follows "/entrie/" after the map name, here "k" | not executed | Utils.ExtractEntrieNameCounterexample | Utils.IntendedImportIdRoundTrip |

The resource model keeps the extraction as written: `MapsResource.ImportFlow` takes the entry
name with `Utils.ExtractEntrieName`, and `MapsResource.ImportAfterEntrieSuffix` and
`MapsResource.ImportCounterexample` show the effect on the importer. The corrected importer
is `MapsResource.IntendedImportFlow`, with `Utils.IntendedEntrieName`; its round trip is
`MapsResource.IntendedImportOfImportId`. `Utils.IntendedAgreesWithExtract` shows that the
two extractions agree on every id `map/<m>/entrie/<k>` built from well-formed names where
`m` does not end in "entrie". Agreement on the other ids the format check accepts (text
before `map/`, or a second "/entrie/") is not proved.
