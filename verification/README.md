# ceph-objectstore-broker, modelled in Dafny

The broker is an Open Service Broker for a Ceph object store. Every service instance is a
tenant-scoped user on the RADOS gateway, and every binding is an extra S3 key plus a Swift
subuser of that user. The broker keeps its own state as objects in one bucket:
`instances/<id>` marks a provisioned instance and `instances/<id>/<binding>` holds the JSON
record needed to undo a binding.

This project models the broker's lifecycle operations as pure state transitions:
`Services`, `Provision`, `Update`, `Deprovision`, `Bind`, `Unbind` and `LastOperation`. It
also models the helpers they rely on, the gateway wrapper, and the environment validator of
the broker configuration. The modules are:

- `Outcomes`: `Result` and `Option`.
- `Text`: `HasPrefix`, `HasSuffix`, `Contains`, `TrimSuffix`.
- `GoConv`: Go's 64-bit `int`, `strconv.Atoi`, `Itoa`, `ParseBool`, `FormatBool`, and truncating division.
- `Names`: the tenant id and the object names.
- `Slices`: the string-slice helpers.
- `Records`: the record store with existence probes, puts, gets, deletes, delimiter listings and counts.
- `Catalog`: plan lookup and plan quota.
- `Radosgw`: the gateway's users, keys, subusers and quotas.
- `Config`: `BrokerConfig.Update`.
- `Lifecycle`: the broker operations.
- `Properties`: invariants and cross-operation properties.
- `EndToEnd`: the broker's end-to-end test sequence.

A `World` is the record store, the gateway and the last recorded error. Each operation
takes an `Oracle`. The oracle is the set of backend calls that fail during that request,
plus the key material the gateway generates in it. Go panics are modelled as errors:

- indexing an empty catalog;
- a plan whose `quotaMB` is not a string;
- a user with no Swift key after a subuser was created.

A panic is returned like any other error but, as in Go, it does not reach the
`LastOperationError` field.

Behaviours of the code a reader may not expect, all modelled as written:

- `Provision` creates the gateway user before it resolves the plan's quota. A bad plan
  therefore leaves an orphaned user behind (`ProvisionOrphansUserOnBadPlan`).
- A failed instance-record write in `Provision` is returned but not recorded as the last
  error (broker/broker.go:114-116).
- `Update` never consults the record store. It checks the plan, compares it with the
  previous plan, and compares the live usage with the new quota.
- A failing existence probe reads as "absent", because the helpers only test `err == nil`.
- The bare endpoint `http://` passes the protocol check with HTTPS on, because trimming its
  trailing `/` leaves `http:/` (`BareHttpSchemeAccepted`).

One place departs from the code on purpose. `Provision` compares the number of instance
records with the limit, where broker/broker.go:87 compares the entry count of a delimiter
listing, which also counts a `instances/<id>/` prefix for every instance with bindings. The
as-written count and the discrepancy are modelled and listed under "## Findings".

## Model

| member | source | states |
|---|---|---|
| Lifecycle.Services | broker/broker.go:71-76 | the catalog is returned unchanged, store and gateway untouched, last error cleared |
| Lifecycle.Provision | broker/broker.go:78-123 | an injected error, the instance limit and an existing instance are refused in that order with only the last error changed; on success the checks passed, the plan quota parsed, the new user holds that quota (in KB, 64-bit wrapped) with quota enabled, the instance record is added and nothing else in the store changes; failures leave the store alone; only the instance's user can change; a bad plan leaves the freshly created user behind; store-write failures and panics keep the previous last error |
| Lifecycle.Update | broker/broker.go:125-172 | the store never changes; an unknown plan is refused as "plan change not supported"; the same plan succeeds with nothing changed; usage at or above the new quota is refused; the gateway changes only on a real plan change whose quota exceeds usage, and then exactly that user's quota is set; errors other than panics become the last error |
| Lifecycle.Deprovision | broker/broker.go:174-211 | absent (or unprobeable) instances are refused as gone, instances with bindings are refused with 403 and nothing changes; on success the instance existed without bindings, its user is deleted and exactly its record is removed; every error becomes the last error |
| Lifecycle.Bind | broker/broker.go:213-230 | injected error, missing instance and existing binding are refused in that order with only the last error changed; success implies the instance record exists, the binding was not there, and `Granted` holds |
| Lifecycle.Grant | broker/broker.go:231-287 | on success the user has exactly one more S3 key (the generated one) and one more subuser named after the binding with its Swift key, the credentials name them and the configured endpoints, the binding record holding the key, the Swift secret, user, subuser and tenant is stored at the binding path and nothing else in the store changed; failures leave the store alone |
| Lifecycle.Unbind | broker/broker.go:289-320 | injected error, missing instance and missing binding are refused in that order; failures leave the store alone and become the last error; the gateway changes only when a binding record is stored; on success the record existed and is the only object removed, and the S3 key and subuser it names existed before and are gone after, with other users untouched |
| Lifecycle.Revoke | broker/broker.go:322-340 | the deletes run key, then subuser, then record, and stop at the first failure: a failing key delete changes nothing, a failing subuser delete leaves the key deleted and the subusers as they were, and with key and subuser present the outcome is decided by the record delete alone |
| Lifecycle.RevokeSubuser | broker/broker.go:327-340 | a failing subuser delete changes nothing; with the subuser present the gateway changes, keys only disappear, the subuser is gone, and the result is decided by the record delete |
| Lifecycle.GetLastOperation | broker/broker.go:343-352 | nothing changes; the result is an error exactly when an error is recorded, and then it is that error; otherwise it is the configured state and description |
| Records.InstanceExists | broker/utils.go:10-13 | true exactly when the probe succeeds and the instance record is stored |
| Records.BindingExists | broker/utils.go:15-18 | true exactly when the probe succeeds and the binding record is stored |
| Records.InstanceCount | broker/utils.go:20-29 | the number of instance records never exceeds what the listing reports |
| Records.InstanceCountAdd | broker/utils.go:20-29 | recording a new instance raises the instance count by exactly one |
| Records.InstanceCountRemove | broker/utils.go:20-29 | removing an instance record lowers the instance count by exactly one |
| Records.ListingCountsBoundInstanceTwice | broker/utils.go:20-29 | the delimiter listing counts one instance with one binding as two entries |
| Records.HasBinds | broker/utils.go:31-39 | the listing under `instances/<id>/` is non-empty exactly when some stored object has that prefix |
| Records.HasBindsReadsListing | broker/utils.go:31-39 | the answer is true exactly when the non-recursive listing under `instances/<id>/` has an entry |
| Records.Put | broker/broker.go:114-116 | a put fails exactly when the call fails; otherwise the object holds the record and every other object is unchanged |
| Records.Get | broker/broker.go:309-313 | a get succeeds exactly when the call works and the object exists, and returns its record |
| Records.Delete | broker/broker.go:332-335 | a delete fails exactly when the call fails; otherwise the object is gone and nothing else changed |
| Catalog.GetPlan | broker/utils.go:41-49 | an empty catalog panics; otherwise the first plan of the first service with the id is returned, or "not found" exactly when no plan of that service has it |
| Catalog.GetPlanQuota | broker/utils.go:51-63 | a quota exactly when the plan exists, its `quotaMB` is a string and `Atoi` accepts it, and then it is that integer; a plan error is passed on unchanged |
| Catalog.PlanQuotaOfPrintedNumber | broker/utils.go:51-63 | a plan whose `quotaMB` is the decimal text of a 64-bit integer yields that integer |
| Names.CreateTenantID | broker/utils.go:65-67 | the tenant has no `-` and keeps every other character with its multiplicity |
| Names.TenantOfConcat | broker/utils.go:65-67 | stripping `-` distributes over concatenation |
| Names.TenantOfDashFree | broker/utils.go:65-67 | an id without `-` is its own tenant |
| Names.TenantIdempotent | broker/utils.go:65-67 | stripping twice equals stripping once |
| Names.InstanceObjName | broker/utils.go:69-72 | the name starts with `instances/` and the id is recovered after it |
| Names.InstanceObjNameInjective | broker/utils.go:69-72 | distinct instances have distinct records |
| Names.BindObjName | broker/utils.go:74-77 | the name is the instance's name, `/`, then the binding id; it extends and differs from the instance's name |
| Names.BindObjNameInjective | broker/utils.go:74-77 | within one instance distinct bindings have distinct records |
| Names.BindIsNotSlashFreeInstance | broker/utils.go:69-77 | no binding record name is the record name of an instance id without `/` |
| Slices.SliceContains | broker/utils.go:79-86 | true exactly when the needle is in the haystack |
| Slices.GetElementIndex | broker/utils.go:88-96 | the index of the first occurrence, non-negative exactly when the element is present |
| Slices.FirstIndexFindsMembers | broker/utils.go:88-96 | the first-occurrence index is found exactly for members |
| Slices.SwapRemoveMultiset | broker/utils.go:98-106 | swapping with the last element and cutting it off removes exactly one copy of the element |
| Slices.RemoveFromSlice | broker/utils.go:98-106 | panics exactly when the element is absent; otherwise one shorter, exactly one copy removed, every other position except the element's kept |
| Radosgw.UidInjective | radosgw/radosgw.go:49 | with `$`-free tenants a `tenant$name` uid determines tenant and name |
| Radosgw.NewUser | radosgw/radosgw.go:39-46 | a new user has one generated S3 key, no subusers, no Swift keys, no usage and no quota |
| Radosgw.CreateUser | radosgw/radosgw.go:39-46 | succeeds exactly when the call works and the uid is free, adding that user and nothing else |
| Radosgw.GetUser | radosgw/radosgw.go:48-55 | succeeds exactly when the call works and the user exists, returning it |
| Radosgw.DeleteUser | radosgw/radosgw.go:84-91 | succeeds exactly when the call works and the user exists, removing only that user |
| Radosgw.SetUserQuota | radosgw/radosgw.go:57-64 | succeeds exactly for an existing user, whose quota becomes `sizeMB * 1024` KB wrapped to 64 bits and enabled, nothing else changing |
| Radosgw.GetUserQuotaMB | radosgw/radosgw.go:66-73 | the quota in KB divided by 1024, truncated toward zero |
| Radosgw.GetUserUsageMB | radosgw/radosgw.go:75-82 | the stored size in KB divided by 1024, rounded down |
| Radosgw.CreateSubuser | radosgw/radosgw.go:93-101 | appends one read-write subuser `tenant$user:subuser` and its Swift key, returns it, changes nothing else; refuses an existing subuser |
| Radosgw.DeleteSubuser | radosgw/radosgw.go:103-111 | the subuser existed; afterwards it and every key it owned are gone and everything else of the user is kept; an existing subuser can always be deleted |
| Radosgw.CreateS3Key | radosgw/radosgw.go:113-122 | appends one generated key, returns it as the last key, changes nothing else; a fresh access key always succeeds |
| Radosgw.DeleteS3Key | radosgw/radosgw.go:124-131 | the key existed; afterwards exactly the keys with other access keys remain; an existing key can always be deleted |
| Radosgw.QuotaRoundTrip | tests/radosgw_test.go:37-40 | for every quota whose `sizeMB * 1024` fits 64 bits, setting it succeeds and reading it back gives the value set |
| Radosgw.FreshUserUsesNothing | tests/radosgw_test.go:27-35 | a fresh user's usage reads as 0 MB |
| Radosgw.DeleteS3KeyDropsOne | tests/radosgw_test.go:47-53 | deleting one of a user's distinct keys drops the key count by exactly one |
| Radosgw.DeleteSubuserDropsOne | tests/radosgw_test.go:55-57 | deleting one of a user's distinct subusers drops the subuser count by exactly one |
| Radosgw.CreateS3KeyKeepsKeysDistinct | radosgw/radosgw.go:113-122 | creating a key keeps the access keys distinct |
| Radosgw.CreateSubuserKeepsSubusersDistinct | radosgw/radosgw.go:93-101 | creating a subuser keeps the subuser ids distinct |
| Config.ReadRequired | brokerConfig/brokerConfig.go:36-54 | the first missing required variable is reported, with the earlier ones written and the missing one blank; with all present the four credentials hold their variables and the endpoint its trimmed value, and nothing else changes |
| Config.ReadOptional | brokerConfig/brokerConfig.go:56-111 | credentials and endpoint are kept; paths, bucket and admin path take their values or defaults; `INSTANCE_LIMIT`, then `USE_HTTPS`, then the two protocol checks are reported exactly when they are the first to fail; it succeeds exactly when all pass, with limit, prefix and protocol flag set |
| Config.Update | brokerConfig/brokerConfig.go:26-112 | each required variable missing is reported exactly when the earlier ones are present; once all are present the credentials hold their variables and the endpoint loses at most one trailing `/`; optional paths, bucket and admin path take their defaults; a bad `INSTANCE_LIMIT` or `USE_HTTPS`, an HTTPS flag with an `http://` endpoint and an HTTP flag with an `https://` endpoint are each reported exactly when they are the first check to fail; the update succeeds exactly when every check passes, and then every field has its value or default |
| Config.UpdateForgetsPrevious | brokerConfig/brokerConfig.go:26-112 | a successful update does not depend on the previous configuration |
| Config.PlainHttpNeedsOptOut | brokerConfig/brokerConfig.go:93-105 | every endpoint `http://` followed by at least one character is refused when `USE_HTTPS` is unset, since HTTPS is the default and trimming one `/` then cannot reach the scheme |
| Config.BareHttpSchemeAccepted | brokerConfig/brokerConfig.go:44-46 | the bare endpoint `http://` with `USE_HTTPS` unset is accepted, trimmed to `http:/`, with HTTPS on |
| GoConv.Wrap64 | radosgw/radosgw.go:58 | the result is a 64-bit integer congruent to the exact value, and equal to it when it fits |
| GoConv.Quot | radosgw/radosgw.go:72 | division truncates toward zero |
| GoConv.Atoi | broker/utils.go:57 | the empty string and a text starting with anything but a digit or sign are refused; otherwise the text parses exactly when everything after an optional `+` or `-` is one or more digits whose signed value fits 64 bits, and then the result is that signed value |
| GoConv.AtoiItoa | brokerConfig/brokerConfig.go:79-82 | every 64-bit integer printed by `Itoa` parses back to itself |
| GoConv.ParseBoolFormatBool | brokerConfig/brokerConfig.go:94-97 | `ParseBool` accepts what `FormatBool` prints and returns the original value |
| Properties.ProvisionKeepsBindsOwned | broker/broker.go:78-123 | Provision keeps every binding record's instance record in the store |
| Properties.DeprovisionKeepsBindsOwned | broker/broker.go:174-211 | Deprovision never removes an instance record a binding record depends on |
| Properties.BindKeepsBindsOwned | broker/broker.go:213-287 | Bind only stores binding records of stored instances |
| Properties.UnbindKeepsBindsOwned | broker/broker.go:289-341 | Unbind keeps every remaining binding's instance record |
| Properties.StepKeepsBindsOwned | broker/broker.go:71-352 | every request, under any backend failures, keeps the invariant |
| Properties.RunKeepsBindsOwned | broker/broker.go:71-352 | along any request sequence no binding record outlives its instance record |
| Properties.LastOperationReportsOutcome | broker/broker.go:343-352 | LastOperation after any request reports its outcome: the configured state after success, the error after a recorded failure, the previous report after a panic or a failed instance write |
| Properties.UnbindStopsAtFirstFailedDelete | broker/broker.go:322-335 | a failed key delete changes nothing, a failed subuser delete leaves the key gone and the subusers intact, a failed record delete leaves both gone and the record stored, and no failure removes the record |
| Properties.BindRecordWriteDecides | broker/broker.go:231-281 | once key and subuser are created, a failed record write leaves them on the gateway with the store unchanged, and a successful one completes the binding |
| Properties.ProvisionOrphansUserOnBadPlan | broker/broker.go:97-107 | a plan without a usable quota fails after the user was created, which stays without an instance record |
| Properties.ProvisionTwiceRefused | broker/broker.go:87-95 | a second Provision of a provisioned instance is refused as existing or over the limit, changing only the last error |
| Properties.BindTwiceRefused | broker/broker.go:226-229 | a second Bind of the same binding is refused as existing, changing only the last error |
| Properties.UnbindTwiceRefused | broker/broker.go:303-306 | a second Unbind of the same binding is refused as gone, changing only the last error |
| Properties.DeprovisionTwiceRefused | broker/broker.go:183-186 | a second Deprovision is refused as gone whatever the backend does |
| EndToEnd.NoBindsAfterUnbind | broker/utils.go:31-39 | a store holding only the start's objects plus the instance record has no bindings for the instance |
| EndToEnd.ProvisionHealthy | tests/broker_test.go:59-69 | provision on a healthy backend succeeds, adds exactly the instance record, and the quota reads back as the plan's |
| EndToEnd.ProvisionStage | tests/broker_test.go:59-72 | with room for one more instance under the limit, provision succeeds with the plan quota stored and the repeat is refused as already existing (409) |
| EndToEnd.BindStage | tests/broker_test.go:74-91 | bind succeeds with credentials naming the user and subuser; binding again and binding to an unknown instance are refused; the user's usage and quota are untouched |
| EndToEnd.PlanChangeHealthy | tests/broker_test.go:116-122 | a PATCH to a plan with a positive quota, sent with no previous plan to an unused user, succeeds and sets exactly that user's quota, leaving the store alone |
| EndToEnd.UpdateStage | tests/broker_test.go:116-130 | the PATCH to the second plan succeeds, the same PATCH sent again succeeds too, the PATCH to an unknown plan is refused as "plan change not supported", and the quota read after all three is the second plan's |
| EndToEnd.UnbindStage | tests/broker_test.go:132-139 | unbind succeeds and removes only the binding record; a repeat is refused as gone |
| EndToEnd.DeprovisionStage | tests/broker_test.go:141-146 | deprovision succeeds, removing the instance record and user; a repeat is refused as gone |
| EndToEnd.FirstHalf | tests/broker_test.go:59-114 | the provision and bind requests of the end-to-end test get the expected answers (the repeat provision exactly "already exists"), and after the binds the user's stored quota is still the first plan's |
| EndToEnd.SecondHalf | tests/broker_test.go:116-146 | the three PATCH requests (none naming a previous plan), the two unbinds and the two deprovisions get the expected answers, and the quota read after the rejected PATCH is the second plan's |
| EndToEnd.BrokerTestSequence | tests/broker_test.go:59-146 | with room for two instances under the limit, every answer of the whole end-to-end sequence is the expected one, including the 409 of the repeat provision and the repeated PATCH; the quota reads back as the first plan's after the binds and as the second plan's after the rejected PATCH, where the test reads them; a full cycle restores the store and the gateway |
| EndToEnd.TestSettingMeetsRequirements | tests/broker_test.go:59-61 | a setting like the test's (instance `789`, an empty store and gateway, a catalog whose two plans have quotas, distinct generated keys) meets every requirement of the end-to-end sequence |

## Left out

- s3/s3.go is not part of this model beyond the abstract record store. Object bodies are not serialised: the binding record is assumed to survive its JSON round trip, and an instance record read as a binding fails to decode.
- Setup of the gateway connection, the HTTP transport, the broker API framework's status-code mapping, logging and `main.go` are left out. They are I/O or foreign code.
- update-cosb-vars/update-vars.go and utils/utils.go are not part of this model. They are a deployment tool and a JSON helper.
- Concurrency is left out. Operations are modelled as atomic transitions on one world.
- The test-double bookkeeping fields (`BrokerCalled`, the stored request details, `LastOperationInstanceID`, `LastOperationData`) are left out. No decision reads them.
- Gateway behaviour is an assumption, because the admin API is foreign code:
  - creating an existing user, subuser or access key fails;
  - per-user calls on a missing user fail;
  - deleting a missing key or subuser fails;
  - a new user gets one generated S3 key;
  - a subuser delete purges its keys;
  - the key, subuser and Swift-key lists the admin API returns put the newest entry last. The Go code takes the last element as the one just created (radosgw/radosgw.go:100, radosgw/radosgw.go:121, broker/broker.go:259), and Lifecycle.Grant's credential clauses rely on this order.
- Listings (`ListObjects`) are assumed never to fail. In the Go code a failing listing delivers one entry that carries the error, and the helpers never look at it: `provisionCount` counts it as one more instance, and `hasBinds` answers true, so Deprovision refuses the instance.
- A failing gateway or store call is modelled as having had no effect. The gateway client has a 5-second timeout (radosgw/radosgw.go:22), so a call that timed out may in fact have been applied; Lifecycle.Revoke, Lifecycle.RevokeSubuser and Properties.UnbindStopsAtFirstFailedDelete state what happens under this assumption.
- Lifecycle.Provision: the limit check counts instance records, the corrected count, instead of the delimiter listing's entries that broker/broker.go:87 counts; the as-written count is Records.ListingCount, and the discrepancy is the "## Findings" row.
- Slices.RemoveFromSlice: returns the shortened slice as a value. It does not model that the Go function also permutes the caller's backing array.
- Properties.BindKeepsBindsOwned: proved for instance ids without `/`. An id containing `/` can make a binding path coincide with another instance's record name, so the invariant is stated for the ids the broker is given in practice.
- Properties.StepKeepsBindsOwned: proved only for requests satisfying `SlashFreeBind`, that is a Bind whose instance id has no `/`, for the reason given for Properties.BindKeepsBindsOwned.
- Properties.RunKeepsBindsOwned: proved only for request sequences whose every request satisfies `SlashFreeBind`, for the same reason.
- Config.Update: states the partially written configuration after a missing required variable only for `RADOS_ACCESS_KEY`; Config.ReadRequired states it for every required variable. The exact error message texts are not modelled. The `BucketName` and `InstancePrefix` settings it reads are not used by the broker, whose bucket and prefix are constants.
- GoConv.ParseBool: its contract only bounds the accepted length. The accepted spellings are listed in its body, and `ParseBoolFormatBool` is the property.

## Findings

| source | as written | input that shows it | evidently intended | confidence | as-written member | corrected member |
|---|---|---|---|---|---|---|
| broker/utils.go:20-29 | `provisionCount` counts every entry of a non-recursive listing under `instances/`, and that listing also reports one common prefix `instances/<id>/` for every instance that has bindings | store holding `instances/a` and `instances/a/b`: the count is 2 with one instance, so the instance limit is reached early | count only the instance records | medium, not executed | Records.ListingCountsBoundInstanceTwice | Records.InstanceCountAdd |
