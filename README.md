# Next.js compatibility gate — a Dafny model

`external-scripts/is-next-compat.ts` is a scheduled gate for a library that
tracks Next.js. It runs in five steps:

1. It looks up the latest Next.js release tag and strips one leading `v`.
2. It finds the nearest `package.json` and changes into its directory.
3. It reads the last version recorded as compatible from a MongoDB `flags` document (the "compat flag").
4. It checks that the manifest declares `peerDependencies.next`.
5. If the release differs from the recorded version, it installs `next@<latest>` (unless the manifest already declares exactly that string) and runs the unit and integration tests. When both pass, it upserts the release as the new compat flag.

As a library call it resolves to `true` or rejects with a wrapped error. From the command line it exits with status 0 or 1.

This project models that decision engine:

- `tags.dfy` (module `Tags`): tag normalisation.
- `gate.dfy` (module `CompatGate`):
  - the configuration flags as a `Config` record. `MONGODB_URI` and `NO_DB_UPDATE` each count as set only when they hold a non-empty value, as the script's truthiness tests do. The third flag is CLI mode;
  - the outcome of every collaborator as an `Oracle` record: release lookup, manifest finder, `cd`, store read, install, tests, the upsert, and the connection close after it;
  - one run as the specification function `Cycle`;
  - the class `Gate`. It holds the persisted record (`stored`) and the effect log (`effects`: `Install(v)`, `Test`, `Write(v)`). Its methods `GetLastTestedVersion`, `SetCompatFlagTo`, `Steps` and `Run` perform the run step by step, in the script's order. Each is proved against the matching specification function.
- `gate_properties.dfy` (module `GateProperties`): the properties of one run, and of a series of runs that share the store.

Versions are opaque strings, compared only for equality, as the script does. No ordering on versions is assumed.

## Model

| member | source | states |
|---|---|---|
| Tags.NormaliseTag | external-scripts/is-next-compat.ts:102 | the result is the tag itself or the tag minus one leading `v`; it is unchanged exactly when the tag does not start with `v`; the length drops by at most one |
| Tags.StripsOneV | external-scripts/is-next-compat.ts:102 | `v` followed by any string normalises to that string: exactly one `v` is removed |
| Tags.DoubledPrefixKeepsOneV | external-scripts/is-next-compat.ts:102 | `"vv1"` normalises to `"v1"` |
| Tags.PrefixedAndBareAgree | external-scripts/is-next-compat.ts:102 | a tag with and without its `v` give the same version, so both compare equal to the recorded one |
| Tags.SecondPassChangesOnlyDoubleV | external-scripts/is-next-compat.ts:102 | normalising a second time changes the result exactly when the tag starts with `vv` |
| CompatGate.CompatOf | external-scripts/is-next-compat.ts:63-69 | the compat field reads as `""` exactly when there is no record or the field is empty; otherwise it reads as the stored value |
| CompatGate.LastTested | external-scripts/is-next-compat.ts:53-80 | the read fails (StoreUnavailable) exactly when a store is configured and unreadable; it yields `""` exactly when no store is configured or the field reads empty; a non-empty result is the stored value |
| CompatGate.Persist | external-scripts/is-next-compat.ts:24-51 | the record is upserted exactly when `MONGODB_URI` is set, `NO_DB_UPDATE` is not, and the upsert lands. It throws StoreWriteFailed exactly when `MONGODB_URI` is set, `NO_DB_UPDATE` is not, and the upsert or the `close()` after it fails. So an upsert followed by a failing close both writes and throws |
| CompatGate.DeclaredNext | external-scripts/is-next-compat.ts:117 | the declared peer dependency reads as `""` exactly when `peerDependencies.next` is absent or empty; otherwise it is that string |
| CompatGate.Cycle | external-scripts/is-next-compat.ts:84-149 | a run leaves the record unchanged, or sets it to this run's normalised release. It does so only after a passing test, with that write as the run's last effect. The run then either succeeds or fails with StoreWriteFailed (the close after the upsert failed). A run that fails in any other way never changes the record |
| CompatGate.Reported | external-scripts/is-next-compat.ts:149-159 | CLI mode always exits, with status 0 exactly on success and 1 otherwise; library mode resolves exactly on success and otherwise rejects with the failure that stopped the run |
| CompatGate.Gate.GetLastTestedVersion | external-scripts/is-next-compat.ts:53-80 | reads the last tested version from the stored record, as `LastTested` specifies, and changes nothing |
| CompatGate.Gate.SetCompatFlagTo | external-scripts/is-next-compat.ts:24-51 | performs `Persist` and returns what it throws. The stored record becomes `version` and `Write(version)` is logged exactly when the upsert lands, even if the close after it then fails. Otherwise both stay as they were |
| CompatGate.Gate.Steps | external-scripts/is-next-compat.ts:85-147 | the step-by-step run returns `Cycle`'s failure, leaves `Cycle`'s record and appends exactly `Cycle`'s effects to the log |
| CompatGate.Gate.Run | external-scripts/is-next-compat.ts:82-160 | a whole run: the new record and the appended effects are `Cycle`'s, and the report is `Reported` for the invocation mode and `Cycle`'s failure |
| GateProperties.NoOpWhenUpToDate | external-scripts/is-next-compat.ts:123-149 | once setup passes, a release equal to the last tested version gives no install, no test, no write, the record unchanged and success |
| GateProperties.EffectsIffNewRelease | external-scripts/is-next-compat.ts:123-145 | once setup passes, a run has effects exactly when the release differs from the last tested version |
| GateProperties.InstallRule | external-scripts/is-next-compat.ts:124-135 | for a new release: when the declared dependency differs, exactly one install of the release comes first; when it is equal, there is no install and the test runs first |
| GateProperties.InstallFailureAborts | external-scripts/is-next-compat.ts:127-130 | a failed install ends the run with InstallFailed. The install is the only effect: no test and no write. The record is unchanged |
| GateProperties.TestFailureIsolation | external-scripts/is-next-compat.ts:135-140 | a failed test ends the run with TestFailed. The test is the last effect and there is no write. The record is unchanged |
| GateProperties.WriteOnlyAfterPassingTest | external-scripts/is-next-compat.ts:135-144 | for all inputs: any write records exactly this run's release, comes right after a passing test and is the last effect. The run succeeds exactly when the close after the upsert succeeds, and otherwise fails with StoreWriteFailed |
| GateProperties.PassingTestCommits | external-scripts/is-next-compat.ts:135-144 | a passing test with a configured, enabled store whose upsert and close both succeed makes the record the release, with the write last, and the run succeeds |
| GateProperties.WriteSuppression | external-scripts/is-next-compat.ts:27-46 | with no `MONGODB_URI`, or with `NO_DB_UPDATE`, a passing run does not write and does not change the record, yet succeeds |
| GateProperties.WriteFailureFails | external-scripts/is-next-compat.ts:29-49 | an upsert that does not land (failed connect or `updateOne`) makes the run fail with StoreWriteFailed and leaves the record unchanged |
| GateProperties.CloseFailureAfterUpsert | external-scripts/is-next-compat.ts:33-49 | an upsert that lands followed by a failing `close()` makes the run fail with StoreWriteFailed, yet the record already holds the release and the write is the last effect |
| GateProperties.EmptyLastTestedForcesCycle | external-scripts/is-next-compat.ts:54-72 | with no store, no record or an empty compat field, the last tested version is `""`. A non-empty release then runs the test, unless its install fails |
| GateProperties.SetupFailuresComeFirst | external-scripts/is-next-compat.ts:95-119 | a failed lookup, missing manifest, failed `cd`, unreadable store or missing peer dependency fails the run before any effect, with the record unchanged. The failure is the first check to fail, in source order |
| GateProperties.NoStoreIgnoresRecord | external-scripts/is-next-compat.ts:58-72 | without `MONGODB_URI` the record is never changed. The outcome and effects do not depend on it, so every run re-tests a new non-empty release |
| GateProperties.RerunIsNoOp | external-scripts/is-next-compat.ts:24-51 | with a store configured and writes enabled, after a successful run, a second run whose setup passes and which sees the same release does nothing and succeeds |
| GateProperties.RecordIsAlwaysTested | external-scripts/is-next-compat.ts:123-144 | over any series of runs sharing the store, the record is the initial one or the normalised release of some run of the series, which tested it, passed and wrote it |
| GateProperties.NoPassNoChange | external-scripts/is-next-compat.ts:135-140 | a series of runs in which no test passes leaves the record as it was |
| GateProperties.UpgradeScenario | external-scripts/is-next-compat.ts:102-144 | recorded `12.9.0`, release `v13.0.0`, declared `12.9.0`, all passing: install `13.0.0`, test, write `13.0.0`; the record becomes `13.0.0` |
| GateProperties.FirstRunScenario | external-scripts/is-next-compat.ts:123-144 | no record, release `13.0.0` already declared, test passing: no install, test, write; the record becomes `13.0.0` |

## Left out

- The GitHub release lookup is an oracle that yields a tag or a failure. This covers the Octokit client and the `GH_TOKEN` warning, which changes nothing but a log line.
- The MongoDB client is reduced to one optional string: connect, `findOne`, `updateOne` with upsert, and `close`. On the read side, a connect, query or close failure is one outcome (`readOk`). On the write side, a connect or `updateOne` failure is one outcome (`writeOk`: nothing written). A `close()` that fails after the upsert landed is a separate outcome (`closeOk`: written, then thrown). Both write-side failures are reported as StoreWriteFailed; the driver's actual error objects are not modelled.
- CompatGate.Cycle: does not promise that a failed run leaves the record unchanged. In the script a `close()` that rejects after the upsert landed (lines 33-49) fails the run with the record already advanced. So "write-back only after full success" holds of the upsert, which follows a passing test, but not of the run's reported outcome.
- Only a missing record and an empty-string compat field are modelled as "falsy". A document whose `compat` is `null`, `0` or `false` is not modelled. The script itself only ever writes strings there.
- Process execution is reduced to integer exit codes (the `cd`, the `npm install` and the two chained `npm run` commands). The captured stdout and stderr carried in the error messages are not modelled. The change of working directory is not logged as an effect.
- `find-package-json` is an oracle that yields an optional manifest with an optional `peerDependencies.next` string. A non-string value there is not modelled.
- These are not modelled: debug logging and its routing to stdout or stderr, the `module.parent` entry check, and `process.exit` itself. The exit status is the `Exit(status)` report.
- A library-mode rejection carries the failure that stopped the run. The error message text that `new Error(e)` builds from it is not modelled.
- The stored version never regressing in version order is not modelled. The script compares versions only for string equality, and it will record whatever release passed its test, older or newer.
- The store is read only after the release lookup, the manifest lookup and the `cd`. It is read before the peer-dependency check, which follows the script's order. A store failure therefore wins over a missing peer dependency.
