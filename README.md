# Harbor core decision rules, modelled in Dafny

This project models the small, self-contained decision rules of the Harbor
registry's back end and proves what they promise:

- **Admin server configuration merge** (`SystemCfg`):
  - deciding whether to reload everything;
  - selecting the environment entries to load;
  - the skip pattern;
  - parsing strings to ints and bools;
  - clamping and migrating `ldap_scope`;
  - filling in missing keys from defaults.

  The configuration map is shared and updated in place, so it is the `items` field of a `ConfigMap` object. The loaders are methods proved against specification functions (`EnvsToLoad`, `Loaded`, `WithLdapScope`, `WithDefaults`).
- **Admin server secret authenticator** (`SecretAuth`): an existential match of the request secret against the configured values, where an empty map allows everything.
- **Registry notification filter** (`RegistryEvents`):
  - `checkEvent`;
  - the manifest media-type pattern;
  - the `filterEvents` loop, proved to keep exactly the accepted events in input order;
  - the "anonymous" user default.
- **Job service HTTP handler** (`JobServiceApi`):
  - the status code, payload and controller call of every request kind;
  - the controller as an oracle of outcomes;
  - the nil-controller pre-check;
  - the path-traversal check on log job ids.
- **Replication schedule trigger** (`ScheduleTrigger`):
  - the cron spec, proved to read back into its fields;
  - `Setup`'s add / submit / rollback / store-uuid sequence over a row store (`RepJobStore`);
  - `Unset`'s stop-then-delete loop, which tolerates 404.

  The job service client and the database faults are oracles.
- **Models reconstructed from their tests**, whose implementations are not part of this model:
  - the job de-duplicator (`DeDup`);
  - the immediate trigger and its watch list (`ImmediateTrigger`);
  - the trigger manager's factory (`TriggerManager`);
  - the user-group DN condition (`UserGroup`).

`Text` models the Go library calls the rules depend on:
- `strings.TrimSpace` over `unicode.IsSpace`;
- `strings.ToLower` and `strings.EqualFold` (ASCII);
- `strings.Contains`;
- `strconv.Atoi`, and `strconv.Itoa` as `fmt`'s `%d` of an int (base 10, 64-bit).

It also defines `Join`, which builds the space-separated cron spec that `fmt.Sprintf` formats, and `Split`, which exists only to read that spec back into its fields in the proofs.

`Wrappers` holds `Option` and `Result`. `Replication` holds the trigger kinds.

## Model

| member | source | states |
|---|---|---|
| SystemCfg.ParseStringToInt | src/adminserver/systemcfg/systemcfg.go:246-251 | the empty string gives 0 without error; any other string succeeds exactly when decimal parsing succeeds, with its value |
| SystemCfg.ParseStringToBool | src/adminserver/systemcfg/systemcfg.go:253-256 | never fails; true exactly when the input equals "true" or "on" ignoring case |
| SystemCfg.ParseIntOfItoa | src/adminserver/systemcfg/systemcfg.go:246-251 | every 64-bit int printed in decimal parses back to itself |
| SystemCfg.IsLoadAll | src/adminserver/systemcfg/systemcfg.go:299-301 | true for a nil configuration; otherwise true exactly when RESET is "true" in any case and RELOAD_KEY differs from the stored reload key |
| SystemCfg.SkipPatternIgnoresPadding | src/adminserver/systemcfg/systemcfg.go:387-396 | white space around SKIP_RELOAD_ENV_PATTERN never changes the skip matcher |
| SystemCfg.BlankPatternIsDefault | src/adminserver/systemcfg/systemcfg.go:387-391 | a missing or all-white-space pattern gives the default "$^" matcher, whatever the regex compiler does |
| SystemCfg.SelectEnvs | src/adminserver/systemcfg/systemcfg.go:372-384 | the selected entries are the full table when reloading all, else the repeat-load table plus the full table's entries whose key is not stored |
| SystemCfg.CopyEnvs | src/adminserver/systemcfg/systemcfg.go:376-378 | the copy loop yields exactly the repeat-load table |
| SystemCfg.AddAbsentEnvs | src/adminserver/systemcfg/systemcfg.go:379-383 | the loop adds exactly the full-table entries whose key is not stored, and keeps every other entry it started with |
| SystemCfg.LoadedContents | src/adminserver/systemcfg/systemcfg.go:398-420 | the loaded map has the stored keys plus the keys of the entries that are neither skipped nor failing; those carry their entry's value and every other key keeps its stored value |
| SystemCfg.LoadedStep | src/adminserver/systemcfg/systemcfg.go:398-420 | loading one more entry adds its value unless it is skipped or fails, so the range order does not matter on success |
| SystemCfg.LoadEntry | src/adminserver/systemcfg/systemcfg.go:399-419 | one loop iteration: a skipped entry changes nothing, a failing one returns its error and changes nothing, any other is stored under its key |
| SystemCfg.PartialLoad | src/adminserver/systemcfg/systemcfg.go:398-420 | loading any part of the selection keeps every stored key and writes only values of selected entries |
| SystemCfg.LoadEnvs | src/adminserver/systemcfg/systemcfg.go:398-420 | the range loop succeeds exactly when every non-skipped entry yields a value; on success the map is the loaded map; on failure the error is that of a non-skipped entry and only loaded values were written |
| SystemCfg.LoadFromEnv | src/adminserver/systemcfg/systemcfg.go:369-423 | succeeds exactly when every selected, non-skipped entry yields a value; on success the map is the loaded map with ldap_scope normalized; on failure the error is that of a selected, non-skipped entry and every changed key holds a loaded value |
| SystemCfg.RestartSelection | src/adminserver/systemcfg/systemcfg.go:372-384 | on a restart exactly the repeat-load keys and the unstored keys are selected, each with its full-table entry, and a stored key outside the repeat-load table keeps its value (apart from ldap_scope) |
| SystemCfg.DefaultPatternSkipsNamedEntries | src/adminserver/systemcfg/systemcfg.go:389-396 | the default pattern "$^" skips no entry with a non-empty env name |
| SystemCfg.NormalizeLdapScope | src/adminserver/systemcfg/systemcfg.go:449-457 | the scope lands in 0..2; with migration 1 and 2 move down by one; without it 0..2 stay; 3 and above give 2; 0 and below give 0 |
| SystemCfg.WithLdapScope | src/adminserver/systemcfg/systemcfg.go:441-460 | ldap_scope becomes an int in 0..2 and no other key changes or appears |
| SystemCfg.ValidLdapScope | src/adminserver/systemcfg/systemcfg.go:441-460 | the map becomes WithLdapScope of the old map; a missing or non-numeric scope reads as 0 |
| SystemCfg.FillMissing | src/adminserver/systemcfg/systemcfg.go:465-469 | the keys become the stored keys plus the default keys; stored keys keep their values and only missing keys take the default |
| SystemCfg.WithDefaults | src/adminserver/systemcfg/systemcfg.go:463-483 | stored keys keep their values; every default key is present and no other key is added; on overlap the string default beats the number default, which beats the bool default |
| SystemCfg.AddMissing | src/adminserver/systemcfg/systemcfg.go:465-469 | one range loop fills exactly the missing keys of one default map |
| SystemCfg.AddMissedKey | src/adminserver/systemcfg/systemcfg.go:463-483 | the map becomes WithDefaults of the old map |
| SecretAuth.Authenticate | src/adminserver/auth/auth.go:41-54 | the error is always nil; an empty map allows every request; otherwise the result is true exactly when some configured value equals the request secret |
| SecretAuth.OnlyValuesMatter | src/adminserver/auth/auth.go:47-51 | two secret maps with the same values accept the same requests, so the names are never consulted |
| RegistryEvents.CheckEvent | src/core/service/notifications/registry/handler.go:175-185 | every push is accepted; a pull is accepted exactly when the trimmed, lower-cased user agent is not "harbor-registry-client"; every other action is rejected |
| RegistryEvents.CheckEventIgnoresPadding | src/core/service/notifications/registry/handler.go:177-181 | white space around the user agent does not change the verdict |
| RegistryEvents.CheckEventIgnoresCase | src/core/service/notifications/registry/handler.go:177-181 | a user agent equal up to letter case gives the same verdict |
| RegistryEvents.ManifestMatcher | src/core/service/notifications/registry/handler.go:41 | the match never errors and is true exactly for media types starting with the manifest stem, a digit, "+" and then "json" or "prettyjws" |
| RegistryEvents.PatternMatchesItsText | src/core/service/notifications/registry/handler.go:41 | pattern text whose only metacharacter is "." matches itself |
| RegistryEvents.ManifestTypesMatch | src/core/service/notifications/registry/handler.go:41 | every "...manifest.v<digit>+json" media type matches, whatever follows |
| RegistryEvents.SchemaTwoManifestMatches | src/core/service/notifications/registry/handler.go:41 | the schema-2 manifest media type matches |
| RegistryEvents.OtherMediaTypesDoNotMatch | src/core/service/notifications/registry/handler.go:41 | an image config type and a manifest list type do not match |
| RegistryEvents.PositionsExact | src/core/service/notifications/registry/handler.go:150-170 | the collected positions are increasing and below the bound, and a position is collected exactly when its flag is set |
| RegistryEvents.AcceptedPositionsExact | src/core/service/notifications/registry/handler.go:148-173 | one entry per accepted event, in input order, and none for any other |
| RegistryEvents.FilterEvents | src/core/service/notifications/registry/handler.go:148-173 | the error is always nil, and the kept positions are exactly the accepted positions in order; a media-type match error drops the event |
| RegistryEvents.FilterWithManifestPattern | src/core/service/notifications/registry/handler.go:148-173 | with the handler's pattern an event is kept exactly when it has a manifest media type and passes checkEvent |
| RegistryEvents.ActorUser | src/core/service/notifications/registry/handler.go:66-69 | an empty actor name is recorded as "anonymous", any other is kept, and the user is never empty |
| JobServiceApi.NilControllerRejectsAll | src/jobservice/api/handler.go:259-266 | every handler without a controller answers 500 and invokes nothing |
| JobServiceApi.BodyErrorResponse | src/jobservice/api/handler.go:70-81 | a body that cannot be read or decoded is answered 500 without a controller call |
| JobServiceApi.BadBodiesAreServerErrors | src/jobservice/api/handler.go:132-143 | an unreadable or malformed body for launch or action is a 500, not a 400, and the controller is not invoked |
| JobServiceApi.LookupErrorResponse | src/jobservice/api/handler.go:108-118 | a not-found error gives 404 with the controller's own error; any other gives 500 with the wrapped error |
| JobServiceApi.HandleLaunchJob | src/jobservice/api/handler.go:65-97 | the launch is passed on; success gives 202 with the stats, a conflict 409 with the controller's error, any other failure 500 |
| JobServiceApi.HandleGetJob | src/jobservice/api/handler.go:100-121 | success gives 200 with the stats; failure gives the lookup failure |
| JobServiceApi.HandleJobAction | src/jobservice/api/handler.go:124-187 | "stop", "cancel" and "retry" invoke the matching command and answer 204 with no body, or 404 with the controller's error when the job is not found, or 500 with the command's wrapped error; any other name gives 501 carrying the job id and invokes nothing |
| JobServiceApi.ActionOutcomes | src/jobservice/api/handler.go:145-186 | a successful command gives 204 with no body; a failed one gives 404 with the controller's own error exactly when the job was not found, else 500 with the Stop, Cancel or Retry wrapped error |
| JobServiceApi.HandleCheckStatus | src/jobservice/api/handler.go:190-202 | success gives 200 with the pool stats; failure gives 500 |
| JobServiceApi.HandleJobLog | src/jobservice/api/handler.go:205-234 | an id containing ".." or the path separator gives 400 before the controller is asked; otherwise 200 with the log, or the lookup failure |
| JobServiceApi.LogRequestsStayInDirectory | src/jobservice/api/handler.go:213-216 | whenever the log controller is reached, the id is not "..", and joined to any directory it adds exactly one path component |
| JobServiceApi.StatusCodesAreKnown | src/jobservice/api/handler.go:65-234 | every answer uses one of the handler's eight status codes |
| ScheduleTrigger.GoRem | src/replication/trigger/schedule.go:45-47 | Go's remainder: it takes the sign of the dividend, has magnitude below the divisor, and equals the Euclidean remainder for non-negative dividends |
| ScheduleTrigger.Cron | src/replication/trigger/schedule.go:42-50 | fails exactly for a schedule type that is neither daily nor weekly |
| ScheduleTrigger.CronSplitsIntoFields | src/replication/trigger/schedule.go:42-47 | the cron spec splits at its spaces into exactly its six fields |
| ScheduleTrigger.CronRoundTrip | src/replication/trigger/schedule.go:42-47 | read back, the spec gives the second, minute and hour from ParseOfftime, two "*", then "*" for daily or the weekday modulo 7 for weekly |
| ScheduleTrigger.WithoutRow | src/replication/trigger/schedule.go:71-77 | a row survives the delete exactly when its id differs |
| ScheduleTrigger.WithoutRowKeepsOrder | src/replication/trigger/schedule.go:71-77 | deleting a row keeps the table in id order |
| ScheduleTrigger.RollbackRestoresTable | src/replication/trigger/schedule.go:71-77 | deleting the row just added restores the table as it was |
| ScheduleTrigger.WithUuid | src/replication/trigger/schedule.go:78 | only the row with the given id takes the uuid |
| ScheduleTrigger.ScheduleJobs | src/replication/trigger/schedule.go:83-89 | the query returns exactly the schedule rows of the policy |
| ScheduleTrigger.RepJobStore.GetScheduleJobs | src/replication/trigger/schedule.go:83-89 | a query fault is returned; otherwise the schedule rows of the policy |
| ScheduleTrigger.RepJobStore.AddRepJob | src/replication/trigger/schedule.go:52-59 | a row with the next id is appended unless the call fails, and the table stays in id order |
| ScheduleTrigger.RepJobStore.DeleteRepJob | src/replication/trigger/schedule.go:71-77 | the row is removed unless the call fails |
| ScheduleTrigger.RepJobStore.SetRepJobUuid | src/replication/trigger/schedule.go:78 | the row's uuid is set unless the call fails |
| ScheduleTrigger.Setup | src/replication/trigger/schedule.go:37-79 | an unsupported type fails before anything is written; a failed add writes nothing; a failed submission deletes the row again and returns the submission error; on success the job's uuid is stored on the new row |
| ScheduleTrigger.Unset | src/replication/trigger/schedule.go:82-107 | a query fault is returned; otherwise the table and error are those of the stop-then-delete run over all the policy's schedule jobs, however many |
| ScheduleTrigger.UnsetRun | src/replication/trigger/schedule.go:94-105 | the stop-then-delete loop only removes rows: every row it leaves was there, every row whose id is not among the jobs' ids stays, and ids stay increasing |
| ScheduleTrigger.UnsetRemovesAll | src/replication/trigger/schedule.go:94-105 | when every stop is tolerated and every delete succeeds, the run ends without error having removed exactly the given jobs |
| ScheduleTrigger.UnsetClearsPolicySchedules | src/replication/trigger/schedule.go:82-107 | in the same case, exactly the rows that are not schedule jobs of the policy remain |
| ScheduleTrigger.StopErrorKeepsRow | src/replication/trigger/schedule.go:94-100 | a stop error other than 404 ends the run before that job's row is deleted |
| DeDup.DeDuplicator.Unique | src/jobservice/pool/de_duplicator_test.go:15-23 | a new sign is recorded without error; a recorded one is refused and the signs stay as they were |
| DeDup.DeDuplicator.DelUniqueSign | src/jobservice/pool/de_duplicator_test.go:25-27 | the sign is removed without error |
| DeDup.DuplicateScenario | src/jobservice/pool/de_duplicator_test.go:9-28 | in a fresh namespace the first Unique succeeds, the second fails, and DelUniqueSign still succeeds, leaving nothing |
| ImmediateTrigger.EntriesFor | src/replication/trigger/immediate_test.go:32-50 | a policy watches pushes to every namespace, and deletions too when it replicates them, and nothing else |
| ImmediateTrigger.WatchList.Get | src/replication/trigger/immediate_test.go:44-50 | the watchers of a namespace and operation are exactly the policies registered for it |
| ImmediateTrigger.Setup | src/replication/trigger/immediate_test.go:41-50 | no error; the watch list gains exactly the policy's entries |
| ImmediateTrigger.Unset | src/replication/trigger/immediate_test.go:52-56 | no error; every entry of the policy is removed and no other |
| ImmediateTrigger.SetupUnsetScenario | src/replication/trigger/immediate_test.go:27-57 | kind immediate; after Setup one push and one delete watcher on "library"; after Unset no delete watcher |
| ImmediateTrigger.SetupThenUnsetKeepsOthers | src/replication/trigger/immediate_test.go:32-57 | setting up and unsetting a trigger leaves the other policies' registrations as they were |
| TriggerManager.CreateTrigger | src/replication/trigger/manager_test.go:28-68 | nil policy or trigger is an error; manual gives none; immediate and schedule (with parameters) give a trigger of that kind built from the policy; other kinds are errors |
| TriggerManager.CreateTriggerCases | src/replication/trigger/manager_test.go:28-68 | the factory's five test cases |
| TriggerManager.KindIdentifiesTrigger | src/replication/trigger/schedule.go:31-34 | a trigger reports kind schedule exactly when it is a schedule trigger and kind immediate exactly when it is an immediate one, never manual or another kind |
| TriggerManager.SetupTrigger | src/replication/trigger/manager_test.go:70-81 | a factory error is returned and manual needs nothing; an immediate policy is set up without error, registering its entries |
| TriggerManager.UnsetTrigger | src/replication/trigger/manager_test.go:83-94 | a factory error is returned; an immediate policy is unset without error, removing its entries |
| TriggerManager.ImmediatePolicyScenario | src/replication/trigger/manager_test.go:70-94 | an immediate-kind policy is set up and unset without error |
| UserGroup.LdapGroups | src/common/dao/group/usergroup_test.go:253-274 | exactly the groups of type 1 (LDAP) contribute |
| UserGroup.LdapGroupsOfAppend | src/common/dao/group/usergroup_test.go:253-272 | the contributing groups keep their input order |
| UserGroup.QuotedDnsOfAppend | src/common/dao/group/usergroup_test.go:271-275 | the quoted DNs of a concatenation are those of each part, in order |
| UserGroup.ConditionOfAppend | src/common/dao/group/usergroup_test.go:252-275 | for two lists that each hold an LDAP group, the condition of their concatenation is the first condition, a comma, then the second |
| UserGroup.EmptyConditionIffNoLdapGroup | src/common/dao/group/usergroup_test.go:276-284 | the condition is empty exactly when no group is an LDAP group, so a nil or empty list gives "" |
| UserGroup.SampleCondition | src/common/dao/group/usergroup_test.go:252-285 | the test's groups give the two LDAP DNs quoted and joined by "," without spaces, and the empty list gives "" |
| Text.TrimSpaceIgnoresPadding | src/core/service/notifications/registry/handler.go:177 | trimming ignores any white space added around a string |
| Text.TrimSpaceDropsPadding | src/adminserver/systemcfg/systemcfg.go:388 | the trimmed string neither starts nor ends with white space, and the input is it with a white-space prefix and suffix around it |
| Text.TrimSpaceKeepsFold | src/core/service/notifications/registry/handler.go:177-181 | strings equal up to case stay so after trimming |
| Text.ToLowerLowers | src/core/service/notifications/registry/handler.go:177 | the lower-cased string is lower case, equal to the input up to case, and the input itself when that is already lower case |
| Text.EqualFoldIsLowerEquality | src/adminserver/systemcfg/systemcfg.go:300 | case-insensitive equality is equality after lower-casing |
| Text.EqualFoldAgainstLower | src/adminserver/systemcfg/systemcfg.go:254-255 | comparing the lower-cased string with a lower-case literal is case-insensitive equality with that literal |
| Text.Contains | src/jobservice/api/handler.go:213 | true exactly when the substring occurs at some position of the string |
| Text.SplitJoin | src/replication/trigger/schedule.go:42-47 | joining fields free of the separator and splitting again gives the fields back |
| Text.AtoiItoa | src/adminserver/systemcfg/systemcfg.go:250 | decimal printing and parsing are inverse on 64-bit ints |
| Text.Atoi | src/adminserver/systemcfg/systemcfg.go:250 | a parsed value lies in the 64-bit range and comes from a string that starts with a digit or a sign |
| Text.ItoaShape | src/replication/trigger/schedule.go:44-47 | the decimal form has a minus sign exactly for a negative number, followed by digits only |

## Left out

- Init and initCfgStore: the database initialisation, the JSON file store, the migration read, `os.Stat` and AES encryption are I/O or foreign code. The environment is a map parameter instead of `os.Getenv`.
- SystemCfg.Tables: the literal contents of `allEnvs` and `repeatLoadEnvs` are written out, but the loaders take the table pair as a parameter. Facts about those literal tables are not proved: that every repeat-load entry is also in the full table, and that no env name is empty. SystemCfg.RestartSelection and SystemCfg.DefaultPatternSkipsNamedEntries therefore take them as preconditions.
- SystemCfg.SkipMatcher: `regexp.Compile` and `MatchString` for the user's skip pattern are an abstract `compile` parameter. Only the default "$^" is given its RE2 meaning, which matches the empty string only.
- SystemCfg.LoadFromEnv: Go's map range order is not modelled, so on failure its contract does not fix which entries were written before the failing one.
- SystemCfg.LoadError: the error carries its cause or the offending entry, not Go's formatted message text.
- SystemCfg.ValidLdapScope: a float64 `ldap_scope` is carried as its truncation toward zero. Floating point, and the conversion's behaviour for floats out of int range, are left out.
- SystemCfg.AddMissedKey: the three default tables `HarborStringKeysMap`, `HarborNumKeysMap` and `HarborBoolKeysMap` are parameters; their contents are not part of this model.
- Text.EqualFold and Text.ToLower: Unicode case folding is reduced to ASCII letters.
- Text.Atoi: only base-10 parsing with an optional sign and the 64-bit range is modelled; the error carries only its input, not the function name and reason of Go's `NumError`.
- SecretAuth: `secret.FromRequest` is not modelled; the request secret is a parameter.
- RegistryEvents.FilterEvents: the Go code appends `&event`, the address of the range variable, so under pre-1.22 semantics every pointer aliases one variable. The model returns the positions of the kept events instead, which does not depend on that aliasing.
- RegistryEvents.IsManifestMediaType: the manifest regex is modelled as a concrete prefix pattern (`.` any character but newline, `\d`, `\+`). Other media-type regexes `regexp.MatchString` could be given are an abstract matcher.
- The goroutines of `NotificationHandler.Post` are left out: access log, repository record, replication, scan and pull count, which are DAO and network I/O behind concurrency. Only the "anonymous" default is modelled.
- JobServiceApi: JSON marshalling of a reply cannot fail in the model; the payload is the object itself. Writing to the connection and logging are left out.
- JobServiceApi.CtlCommandStop, CtlCommandCancel and CtlCommandRetry: the action names "stop", "cancel" and "retry" are taken as given; the constants' defining file is not part of this model.
- ScheduleTrigger.JobActionStop: the stop action name "stop" is taken as given; the constant's defining file is not part of this model.
- JobServiceApi.PathSeparator: `os.PathSeparator` is taken as '/'.
- JobServiceApi.Controller: the job controller is an oracle. The job pool, status machine, periodic scheduler and webhooks behind it are not part of this model.
- ScheduleTrigger: `ParseOfftime` is an abstract parameter. The DAO calls and the HTTP job service client are faults and an oracle that may fail, not their real behaviour. Logging is left out, including the warning about a job count other than one. The schedule-job query is taken to return the policy's rows in table order; the source fixes no order, and it decides which rows are already deleted when Unset stops at a stop error.
- DeDup: the Redis implementation, its TTL and namespace isolation are not part of this model. Only the set-of-signs contract of its test is modelled.
- ImmediateTrigger: its implementation is not part of this model; the watch list is a set of (namespace, operation, policy) entries, as its test observes it.
- TriggerManager.CreateTrigger: its implementation is not part of this model. The error for a schedule trigger without parameters and for an unknown kind follows from the factory's contract, not from a pinned test.
- UserGroup.GetGroupDnQueryCondition: its implementation is not part of this model. The filter / quote / join shape is what its test fixes. The database CRUD of the group DAO is left out.
- replication event handlers, the metadata list, the job service bootstrap, the proxy, the monitor API, the portal and the Python API tests are not part of this model.
