# Cron job record and Redis migration router, modelled in Dafny

This project models two pieces of the gdk Go library: the cron job record of package `cronx`, and the two-instance migration client of package `cache`.

**The cron job** (`cronx_job.dfy`, module `Cronx`). A `Job` wraps the user's job value. Its display name comes from the value's runtime type: the type's name, else its element type's name, else its string form, with a chosen name of exactly `Func` (the name of the package's function adapter type, or of any other type so named) shown as `(nameless)`. The job keeps an internal numeric status and republishes it as a public `StatusCode`. `Run` takes the run-lock and marks the job Running. It then passes the job through the interceptor chain and records the outcome: Error plus the message, or Idle. Finally it records the latency, republishes the status and releases the lock. In the model the interceptor chain, together with the wrapped job's own `Run`, is a function from the job as the chain sees it (`JobView`) to an outcome. The latency is an opaque string that the caller supplies. The run-lock is a flag.

**The migration client** (`redis_migrator.dfy`, module `Cache`, over `redis_store.dfy`, module `RedisStore`). `RedisMigrator` sits over an *origin* instance that is being retired and a *destination* instance that is being filled. Reads (`Get`, `Exists`, `TTL`, `HGet`, `HExists`) ask destination first and fall back to origin. A destination error is never returned; an origin error is wrapped with the operation's label. Creates (`SetEX`, `HSet`) go to destination only. `Expire` and `Del` go to origin and then to destination, and they return destination's result and error alone. Each instance is a value: its string keys, hash keys and expiry times, plus an availability fault. A faulty instance fails every command and changes nothing. Reads are functions of the two instance states (`Backends`). Writes are methods of the `RedisMigrator` class. Each write is proved against `Effect`, the transition for one command. A ghost trace `sent` records which instance got each command, in order. `NewRedisMigrator` runs over a `MigratorOnce` object that stands for the package-level once-state.

The main results:
- `ReplayDrainsOrigin`: over any sequence of migrator writes, origin only ever loses data.
- `SetEXStaysVisible`: a value written through `SetEX` to a healthy destination stays what `Get` returns until a later write touches that key.
- `GetReadsOverlay`, `ExistsReadsUnion` and `HGetReadsFieldOverlay` tie the reads to a reference view in which destination's data overrides origin's.

## Model

| member | source | states |
|---|---|---|
| Cronx.StatusOf | pkg/cronx/job.go:31-42 | each of the four recognised internal words maps to its own public code, in both directions; every other word, `statusUp` included, maps to Up |
| Cronx.DeriveName | pkg/cronx/job.go:78-87 | the name is the type's name if that is non-empty, else the element type's name if non-empty, else the string form; whichever of the three is chosen, if it is exactly `Func` the name is `(nameless)` instead, so the name is never `Func`; the name is empty only when all three are empty |
| Cronx.Job.NewJob | pkg/cronx/job.go:77-95 | a new job has the derived name, public status Up, internal status `statusUp`, empty Error and Latency, a zero entry id, the argument as its wrapped job, and a free lock |
| Cronx.Job.UpdateStatus | pkg/cronx/job.go:30-44 | the public status becomes the code of the internal status and is returned; the internal status is untouched, so a call on a job whose public status already agrees with its internal one changes nothing (a second call is idempotent) |
| Cronx.Job.Run | pkg/cronx/job.go:47-74 | the chain sees the job locked, with both statuses Running and every other field as before; on a failure Error is the message and the status is Error; on success the status is Idle and Error keeps its old value; Latency is written; afterwards the public status agrees with the internal one, Name and EntryID are unchanged, and the lock is free |
| Cronx.ErrorKeptAfterRecovery | pkg/cronx/job.go:62-67 | after a failing run and then a successful one, the job reports Idle but still carries the failure message |
| Cronx.RunTwiceSeesPreviousOutcome | pkg/cronx/job.go:52-73 | the lock is free again after a run, so a second run starts; that second run's chain sees the first run's latency and error with the status Running |
| Cache.Get | pkg/storage/cache/redis_migrator.go:41-60 | destination's reply is returned when it has a value and no error; otherwise origin's reply is returned, and an origin error is returned wrapped with a nil value; an error returned always comes from origin |
| Cache.Exists | pkg/storage/cache/redis_migrator.go:82-101 | true is returned when destination says true without error; otherwise origin's answer is returned, or false with origin's wrapped error; an error returned always comes from origin |
| Cache.TTL | pkg/storage/cache/redis_migrator.go:123-142 | destination's TTL is returned only when it is positive and without error; otherwise origin's TTL is returned, or 0 with origin's wrapped error |
| Cache.HGet | pkg/storage/cache/redis_migrator.go:145-164 | the fallback rule of Get, applied to one field of a hash |
| Cache.HExistsLabelled | pkg/storage/cache/redis_migrator.go:167-186 | the fallback rule of Exists, applied to one field of a hash, with the error label passed as an argument |
| Cache.HExistsAsWritten | pkg/storage/cache/redis_migrator.go:168 | HExists as the code is written: every error it returns is labelled `cache/RedisMigrator.HGet` |
| Cache.HExists | pkg/storage/cache/redis_migrator.go:167-186 | the fallback rule of Exists on a hash field, with errors labelled `cache/RedisMigrator.HExists`; an error returned always comes from origin |
| Cache.HExistsAsWrittenMislabels | pkg/storage/cache/redis_migrator.go:168 | when origin fails, the error from HExists as written equals the error HGet returns in the same state; the corrected HExists labels it as HExists |
| Cache.GetReadsOverlay | pkg/storage/cache/redis_migrator.go:18-22 | with both instances healthy, Get reads the keyspace in which destination's strings override origin's |
| Cache.ExistsReadsUnion | pkg/storage/cache/redis_migrator.go:82-101 | with both instances healthy, Exists holds exactly when either instance has the key |
| Cache.HGetReadsFieldOverlay | pkg/storage/cache/redis_migrator.go:145-164 | with both instances healthy, HGet overlays field by field: a field that destination's hash lacks is read from origin |
| Cache.ReadsSurviveDestinationFailure | pkg/storage/cache/redis_migrator.go:45-56 | with origin healthy, no read returns an error, whatever state destination is in |
| Cache.TTLOfPersistentDestinationKey | pkg/storage/cache/redis_migrator.go:127-141 | a key that destination holds without an expiry and origin lacks counts as existing, yet its TTL reads -2 (missing), because only a positive TTL from destination wins |
| Cache.Effect | pkg/storage/cache/redis_migrator.go:18-22 | SetEX and HSet change destination only; Expire and Del change both instances; no write changes either instance's fault |
| Cache.EffectDrainsOrigin | pkg/storage/cache/redis_migrator.go:18-22 | no single write adds data to origin or changes data in it |
| Cache.ReplayDrainsOrigin | pkg/storage/cache/redis_migrator.go:18-22 | after any sequence of migrator writes, every string and hash in origin was already there, with the same contents |
| Cache.SetEXStaysVisible | pkg/storage/cache/redis_migrator.go:72-78 | after SetEX reaches a healthy destination, Get returns the written value, whatever origin holds, through any later writes that do not mention the key |
| Cache.RedisMigrator.constructor | pkg/storage/cache/redis_migrator.go:31-34 | the client holds the two given instances and has sent nothing yet |
| Cache.RedisMigrator.SetEX | pkg/storage/cache/redis_migrator.go:63-79 | only destination gets the command; origin is unchanged; a destination error is returned wrapped; on success Get returns the value |
| Cache.RedisMigrator.HSet | pkg/storage/cache/redis_migrator.go:189-200 | only destination gets the command; origin is unchanged; a destination error is returned wrapped with false; on success destination's "field is new" answer is returned and HGet returns the value |
| Cache.RedisMigrator.Expire | pkg/storage/cache/redis_migrator.go:104-120 | the trace records origin's command before destination's; both instances are updated; the result and the error, unwrapped, are destination's alone |
| Cache.RedisMigrator.Del | pkg/storage/cache/redis_migrator.go:203-219 | the trace records origin's command before destination's; the count and the error are destination's alone; the keys are gone from each instance that did not fail |
| Cache.MigratorOnce.constructor | pkg/storage/cache/redis_migrator.go:12-16 | at program start no client has been built and the stored error is nil |
| Cache.MigratorOnce.NewRedisMigrator | pkg/storage/cache/redis_migrator.go:29-38 | the first call builds a client over its arguments; every later call returns that same client untouched and ignores its arguments; the error is always nil |
| Cache.SecondCallKeepsFirstClient | pkg/storage/cache/redis_migrator.go:29-38 | two calls with different instances return the same client, over the first call's instances, and both return a nil error |
| Cache.DelCountsDestinationOnly | pkg/storage/cache/redis_migrator.go:207-218 | when both instances hold a key, Del removes it from both and counts 1 (not 2) |
| Cache.ExpireAnswersForDestination | pkg/storage/cache/redis_migrator.go:108-119 | if origin fails and destination succeeds, Expire returns true with no error; if destination fails, Expire returns false with destination's error, unwrapped |

## Left out

- Cronx.Job.Run: requires the run-lock to be free on entry. In the source, a held lock blocks the caller until the concurrent run releases it. Blocking and the no-overlap guarantee between firings are concurrency, which this sequential model leaves out.
- Cronx.Job.Run: a panic in the interceptor chain or in the wrapped job is not modelled, because the oracle always returns an outcome. In the source the deferred unlock at pkg/cronx/job.go:53 still frees the lock, but the status stays Running, `Latency` is not written and the panic propagates to the caller.
- Cronx.Job.Run: the interceptor chain is an oracle that cannot change the job. In the source the chain gets the job pointer and could write to its fields.
- The atomic loads and stores of the internal status are modelled as plain field reads and writes.
- The wall-clock latency and its `time.Duration` formatting are left out. `Latency` is an opaque string written once per run. In the source the clock starts before the lock is taken, so the latency includes time spent waiting for the lock.
- `reflect.TypeOf` is left out: the three strings it would give are inputs. The panic of `Elem()` on a non-pointer type is not modelled.
- The status constants and the `StatusCode` values are declared in a file that is not part of this model. The model gives the internal words the distinct values 0 to 4 and relies only on their being distinct.
- The job controller (`Schedule`, `Schedules`, `Every`, `Remove`, `GetEntries`, `Stop`) and the interceptor implementation are not part of this model: their source is not among the modelled files.
- Context values, the `logx` debug logging and `Close` are left out. So is the internals of `errorx.E`: a wrapped error is `Wrapped(op, cause)`.
- The backing instances are a minimal model of Redis. Keys do not expire with time. A string key and a hash key do not conflict (no WRONGTYPE error). A non-positive expiry is not treated specially. A fault covers the whole instance, so a failure that leaves a write half applied is not modelled.
- In this model a missing key gives a nil value and no error. The go-redis wrapper in pkg/storage/cache/goredis_v8_cluster.go passes go-redis's "nil" error through instead. Under that wrapper, a key missing from both instances makes `Get` return origin's wrapped error.
- `Del` takes string keys. The variadic `interface{}` keys, and the wrapper's conversion of them to strings, are left out.
- Cache.RedisMigrator.Expire, Cache.RedisMigrator.Del: the order "origin first, then destination" is stated only through the ghost trace `sent`. The two instances are independent values, so the order of their updates cannot be observed in the model, and nothing but the trace ties that order to the body.
- RedisStore.Del with an empty key list answers (0, nil); Redis rejects a DEL without keys with an error.
- Cache.MigratorOnce is an object that callers construct, so several can exist. The source has a single package-level once-state, and its single-flight guarantee under concurrent first calls is not modelled.
- The two instances are values held by the client. Aliasing is left out: the same instance as both origin and destination, or an instance shared with another client.
- A successful run does not clear `Error` (pkg/cronx/job.go:65-67); the model follows the code (see `ErrorKeptAfterRecovery`). A failed run leaves `Error` empty if the failure's message is empty.

## Findings

| source | as written | input that shows it | evidently intended | confidence | as-written member | corrected member |
|---|---|---|---|---|---|---|
| pkg/storage/cache/redis_migrator.go:168 | HExists wraps its errors with the label `cache/RedisMigrator.HGet` | destination lacks the field and origin fails with message m: the error is `Wrapped("cache/RedisMigrator.HGet", m)`, the same error HGet returns | the label `cache/RedisMigrator.HExists` | not executed; high | Cache.HExistsAsWritten, Cache.HExistsAsWrittenMislabels | Cache.HExists |
