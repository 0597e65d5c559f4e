# redis-sharder, modelled in Dafny

redis-sharder coordinates the processes ("clusters") of a Discord bot through
Redis. A distributed lock admits one cluster at a time to the gateway, and
stored statistics records describe every cluster. A pub/sub layer lets any
process ask the whole fleet for a guild, a user, an evaluation or statistics,
then collect the answers. This project models the sequential logic under
that plumbing. Redis, the gateway library and the lock binding are abstract:

- published messages and emitted events go to logs;
- timeouts and lock outcomes are explicit inputs;
- incoming messages arrive already decoded.

The files:

- `Common.dfy` holds optional values, results, the JavaScript `value || fallback` on strings, the default lock key and the abstract lock's options and outcomes.
- `Stats.dfy` holds the statistics records and `Aggregate`, a declarative fleet-wide total: sums, concatenated shard lists and one entry per cluster. It also holds `AddCluster`, the in-place fold step. Both the pub/sub layer's `formatStats` and the data client's `getStats` are proved equal to `Aggregate`.
- `PubSub.dfy` models the pub/sub layer as a class. It holds:
  - the registry of pending requests (`returns`, named `resolvers` here because `returns` is a Dafny keyword);
  - the per-request reply lists `evals` and `stats`;
  - the application handlers `subs`;
  - a log of published messages and a log of promise resolutions.

  Each resolver is a promise token. A promise takes only its first resolution, and the class invariant proves that no token is resolved twice.
- `LegacyGateway.dfy` covers the legacy gateway client:
  - constructor checks and defaults;
  - `calculateThisShards`;
  - `queue` and `aquire`;
  - the `ready`, `shardDisconnect` and `shardReady` listeners, which drive `hasLock` and `fullyStarted`;
  - the `getStats` fold.
- `ShardingGateway.dfy` covers the newer gateway client:
  - constructor validation, the lock key and the lock options;
  - the `acquireLock`, `extendLock` and `releaseLock` wrappers;
  - `queue`, `setupListeners` and the lifecycle listeners it registers. `setupListeners` is public and may run more than once, so the client counts its listeners.
- `DataClient.dfy` covers the data client: constructor validation, the stored-statistics fold (including the records it cannot read), and the `evalAll` password guard in front of the pub/sub layer.

The fan-in completion test in `src/util/PubSub.ts` divides floats:
`Number(maxShards) / shardsPerCluster === length`. The model replaces it with
the integer test `length * shardsPerCluster == maxShards`, which requires
`maxShards` to be a number and `shardsPerCluster` to be non-zero.
`PubSub.FleetCompleteIsQuotient` proves the two agree whenever the quotient is
exact. A fractional quotient can never equal a length, so the tests also agree
when it is not.

The code and its comments disagree in two places. The model follows the code.

- **Shard ranges.** A doc comment (src/sharding/GatewayClient.ts:13) says the remainder of the shards goes to the last cluster. `calculateThisShards` gives every cluster exactly `shardsPerCluster` ids and never clamps to `maxShards`; `LegacyGateway.RangeNotClamped` proves the last cluster then reaches past the fleet.
- **Lock option comments.** The comments on `retries` and `delay` in src/util/lock.ts are swapped. The model uses the option values as the code passes them.

The model also keeps five defects exactly as written:

- The `getGuild` deadline deletes the `user_<id>` key, so a guild resolver stays registered after its deadline (`PubSub.PubSub.GetGuildTimeout`).
- The legacy `getStats` adds each record's `users` to the guild total (`LegacyGateway.GetStats`, `LegacyGateway.GuildTotalIsUserTotal`).
- In the legacy `aquire`, a lock promise that resolves with an error value never settles (`LegacyGateway.LegacyGatewayClient.SettleAcquire`).
- The legacy constructor reads `options.erisOptions` before its "No options provided" check, so missing options throw a `TypeError` instead (`LegacyGateway.ValidateOptions`, error `OptionsUndefined`).
- The data client's `getStats` reads `memoryUsage.rss` from every stored record, but the legacy client stores records without `memoryUsage`, `id` and `uptime`; one such record makes the call throw inside the scan and never settle (`DataClients.DataClient.GetStats`).

## Model

| member | source | states |
|---|---|---|
| Common.LockKeyOrDefault | src/sharding/GatewayClient.ts:105-107 | the lock key is the configured `lockKey` when it is non-empty, otherwise `'redis-sharder'`; it is never empty |
| Stats.AggregateOfNothing | src/DateClient.ts:109-119 | with no cluster records the total is all zeros, with no shards and no cluster entries |
| Stats.AggregateAppend | src/util/PubSub.ts:189-207 | the total of two batches of records is the merge of their totals (counters add, shard and cluster lists concatenate) |
| Stats.AggregateSnoc | src/util/PubSub.ts:189-207 | one more record adds its guilds, users, voice, rss and heapUsed, appends its shards, and appends exactly one cluster entry |
| Stats.ShardPosition | src/util/PubSub.ts:193-195 | shard `j` of record `k` appears in the total's shard list at offset (shards of records before `k`) + `j`, so shards keep input order |
| Stats.ClusterEntry | src/util/PubSub.ts:198-206 | the total has one cluster entry per record. Entry `k` carries record `k`'s id, guilds, users, voice, memory usage and uptime, and lists exactly record `k`'s shard ids: as many as its shards, in the same order |
| Stats.UniformShardCount | src/util/PubSub.ts:189-207 | when every record has `n` shards, the total lists `n` shards per record and one entry per record |
| Stats.AbsentContributesNothing | src/GatewayClient.ts:200-212 | in the legacy `getStats`, a key whose stored value is absent or empty adds nothing to any total or list |
| Stats.AddCluster | src/DateClient.ts:126-143 | one step of the in-place fold turns the total of the records folded so far into the total of those records plus the new one |
| PubSub.FleetCompleteIsQuotient | src/util/PubSub.ts:107-117 | the integer completion test holds exactly when `maxShards / shardsPerCluster` is a whole number equal to the reply count |
| PubSub.CompletionCountUnique | src/util/PubSub.ts:156-166 | a fan-in can complete at only one reply count |
| PubSub.KeysDisjoint | src/util/PubSub.ts:212-252 | the `guild_`, `user_`, `eval_` and `stats_` registry keys of any two ids never collide |
| PubSub.ResolvedAtMostOnce | src/util/PubSub.ts:212-234 | with distinct tokens in the resolution log, each pending request is resolved at most once even when a reply and a deadline both fire |
| PubSub.FormatStats | src/util/PubSub.ts:176-210 | `formatStats` of the collected replies is the fleet-wide total of their records, in arrival order |
| PubSub.PubSub.constructor | src/util/PubSub.ts:20-31 | all four maps and all three logs (published messages, resolutions, dispatches) start empty, for the given client and password |
| PubSub.PubSub.Resolve | src/util/PubSub.ts:59-62 | calling a resolver settles its promise; only the first call records a resolution |
| PubSub.PubSub.HandleMessage | src/util/PubSub.ts:49-174 | one incoming message runs its channel's branch and then the handler registered for that channel. Lookups reaching a data client, and evaluation traffic without a password, change nothing and dispatch nothing. A `stats` request is answered only by a gateway client whose lock key matches. The invariant is preserved |
| PubSub.PubSub.Answer | src/util/PubSub.ts:58-78 | a `returnGuild`/`returnUser` reply with a registered resolver resolves it with the reply and removes the key; an unknown key changes nothing |
| PubSub.PubSub.CollectEval | src/util/PubSub.ts:99-119 | a `returnEval` reply for a registered id appends one output. When length × shardsPerCluster equals maxShards, both entries are removed and the resolver gets the outputs in arrival order; otherwise both stay. An unregistered id changes nothing |
| PubSub.PubSub.CollectStats | src/util/PubSub.ts:149-168 | as for `returnEval`, but the resolver gets the fleet-wide total of the collected replies |
| PubSub.PubSub.GetGuildRequest | src/util/PubSub.ts:212-215 | registers a fresh resolver under `guild_<id>` and publishes the request |
| PubSub.PubSub.GetUserRequest | src/util/PubSub.ts:224-227 | registers a fresh resolver under `user_<id>` and publishes the request |
| PubSub.PubSub.EvalAllRequest | src/util/PubSub.ts:236-240 | registers a fresh resolver under `eval_<id>` and publishes the script with the client's id (empty for a data client) |
| PubSub.PubSub.GetStatsRequest | src/util/PubSub.ts:249-253 | registers a fresh resolver under `stats_<id>` and publishes a request for `key`, or for the client's own lock key when `key` is missing or empty |
| PubSub.PubSub.GetGuildTimeout | src/util/PubSub.ts:217-220 | the deadline removes `user_<id>`, leaves a registered `guild_<id>` resolver in place, and resolves with `undefined` unless already resolved |
| PubSub.PubSub.GetUserTimeout | src/util/PubSub.ts:229-232 | the deadline removes `user_<id>` and resolves with `undefined` unless already resolved |
| PubSub.PubSub.EvalAllTimeout | src/util/PubSub.ts:242-245 | the deadline removes `eval_<id>`, leaves collected outputs in place, and resolves with `undefined` unless already resolved |
| PubSub.PubSub.GetStatsTimeout | src/util/PubSub.ts:255-261 | the deadline removes `stats_<id>` and the reply list, and resolves with the total of the replies that arrived (all zeros when none did) |
| PubSub.PubSub.Sub | src/util/PubSub.ts:265-268 | registers the handler for the event name, replacing any earlier one |
| PubSub.PubSub.Pub | src/util/PubSub.ts:270-273 | publishes the message on the event name's channel |
| LegacyGateway.ValidateOptions | src/GatewayClient.ts:75-87 | missing options are an error (the `TypeError` of reading `options.erisOptions` at line 76, since the check at line 78 is never reached), and so is a missing or zero `shardsPerCluster`; otherwise the configuration keeps `shardsPerCluster` and defaults the lock key |
| LegacyGateway.ThisShards | src/GatewayClient.ts:156-159 | cluster `f`'s range starts at `shardsPerCluster * f` and holds exactly `shardsPerCluster` ids |
| LegacyGateway.NextClusterFollows | src/GatewayClient.ts:156-159 | cluster `f + 1`'s range starts right after cluster `f`'s ends |
| LegacyGateway.OwnedByOneCluster | src/GatewayClient.ts:156-159 | every non-negative shard id lies in exactly one cluster's range, that of cluster `id / shardsPerCluster` |
| LegacyGateway.RangeNotClamped | src/GatewayClient.ts:156-159 | when `shardsPerCluster` does not divide `maxShards`, the cluster owning the last shard has a range that reaches past `maxShards - 1` |
| LegacyGateway.CountAllIff | src/GatewayClient.ts:145-146 | the number of ready shards equals the collection's size exactly when every shard is ready |
| LegacyGateway.FirstWith | src/GatewayClient.ts:147-149 | the search finds the first shard with the status, or reports that no shard has it |
| LegacyGateway.LegacyGatewayClient.constructor | src/GatewayClient.ts:75-104 | `autoreconnect`, `hasLock` and `fullyStarted` start false; the lock timeout is `shardsPerCluster * 7500`, with `Number.MAX_SAFE_INTEGER` retries and a 100 ms delay |
| LegacyGateway.LegacyGatewayClient.Create | src/GatewayClient.ts:75-91 | construction fails exactly when validation does, with the same error; otherwise both flags start false |
| LegacyGateway.LegacyGatewayClient.SettleAcquire | src/GatewayClient.ts:172-184 | a successful acquire sets `hasLock`, emits `acquiredLock` and yields true. A rejected one yields false and leaves `hasLock` alone. One resolved with an error never settles |
| LegacyGateway.LegacyGatewayClient.Queue | src/GatewayClient.ts:161-170 | stores the computed range into `firstShardID`/`lastShardID` before acquiring on `<lockKey>:shard:identify`; connects only after a successful acquire, and otherwise schedules a retry |
| LegacyGateway.LegacyGatewayClient.OnReady | src/GatewayClient.ts:129-133 | releases the identify lock, then sets `hasLock` false and `fullyStarted` true |
| LegacyGateway.LegacyGatewayClient.OnShardDisconnect | src/GatewayClient.ts:135-144 | with the lock held, nothing happens. Without it, an acquire is started and the shard, if it exists, reconnects at once without waiting for the acquire |
| LegacyGateway.LegacyGatewayClient.OnShardReady | src/GatewayClient.ts:145-153 | when every shard is ready, `hasLock` becomes false and nothing connects. Otherwise, after `ready` and with a disconnected shard, exactly the first disconnected shard connects. Otherwise nothing happens |
| LegacyGateway.ReportedTotalsSnoc | src/GatewayClient.ts:202-211 | one more stored record adds its `users` to both the guild and user totals, its `voice` to the voice total, and appends its shards |
| LegacyGateway.GuildTotalIsUserTotal | src/GatewayClient.ts:204 | a record with 5 guilds and 7 users is reported as 7 guilds |
| LegacyGateway.AddRecord | src/GatewayClient.ts:202-211 | one step of the in-place fold extends the reported totals by one record |
| LegacyGateway.GetStats | src/GatewayClient.ts:186-219 | the reported guild and user totals both equal the sum of the present records' `users`; voice is summed; shards are concatenated in key order; absent keys contribute nothing |
| ShardingGateway.LockOptionsFor | src/sharding/GatewayClient.ts:80-84 | the lock timeout is a whole number of 5000 ms units, one per shard of the cluster, so a non-empty cluster gets at least 5 s; retries are unlimited (-1) and the delay is 1000 ms |
| ShardingGateway.LockTimeoutAdditive | src/sharding/GatewayClient.ts:80-84 | the timeout is proportional to the cluster size: the timeouts of two sizes add up to the timeout of their sum |
| ShardingGateway.LockTimeoutMonotone | src/sharding/GatewayClient.ts:80-84 | a larger cluster never gets a shorter lock timeout |
| ShardingGateway.ShardingGatewayClient.constructor | src/sharding/GatewayClient.ts:68-87 | `autoreconnect` is forced false, the lock gets its options, nothing is logged yet, and one `setupListeners` call leaves one `shardReady` and one pending `once('ready')` listener |
| ShardingGateway.ShardingGatewayClient.Create | src/sharding/GatewayClient.ts:68-87 | construction throws exactly when `maxShards` is `'auto'` or falsy; otherwise the client starts with its lock options, an empty log and one set of listeners |
| ShardingGateway.ShardingGatewayClient.SetupListeners | src/sharding/GatewayClient.ts:155-168 | each call registers one more `shardReady` listener and one more pending `once('ready')` listener, keeping the release invariant |
| ShardingGateway.ShardingGatewayClient.AcquireLock | src/sharding/GatewayClient.ts:112-118 | acquires on the client's key; emits `acquiredLock` and yields true once acquired; a rejection propagates and nothing is emitted |
| ShardingGateway.ShardingGatewayClient.ExtendLock | src/sharding/GatewayClient.ts:124-134 | a failed extension returns false and emits nothing; a successful one emits `extendedLock(duration)` and returns true |
| ShardingGateway.ShardingGatewayClient.ReleaseLock | src/sharding/GatewayClient.ts:139-149 | a failed release returns false and emits nothing; a successful one emits `releasedLock` and returns true |
| ShardingGateway.ShardingGatewayClient.Queue | src/sharding/GatewayClient.ts:93-100 | a batch size above one installs a cross-shard manager first; `connect` follows the acquire and its `acquiredLock`, and a rejected acquire ends the call before `connect` |
| ShardingGateway.ShardingGatewayClient.OnShardReady | src/sharding/GatewayClient.ts:155-158 | a ready shard runs every registered `shardReady` listener in order, each extending the lock by 8000 ms; no release is logged |
| ShardingGateway.Extensions | src/sharding/GatewayClient.ts:124-134 | the log of a run of `extendLock` calls holds one extension request per call and no release |
| ShardingGateway.Releases | src/sharding/GatewayClient.ts:139-149 | the log of a run of `releaseLock` calls holds exactly one release per call |
| ShardingGateway.ShardingGatewayClient.OnReady | src/sharding/GatewayClient.ts:164-167 | a `ready` removes every pending `once('ready')` listener and each one releases the lock, so the releases grow by the number pending; with none pending (a later `ready`) nothing changes |
| ShardingGateway.ReleasesBoundedBySetups | src/sharding/GatewayClient.ts:155-168 | however the listeners run, the lock is released at most once per `setupListeners` call, so at most once while only the constructor has called it |
| DataClients.ValidateOptions | src/DateClient.ts:83-89 | the three errors are raised in order: no options, then missing or zero `maxShards`, then missing or zero `shardsPerCluster`; the lock key defaults to `'redis-sharder'` |
| DataClients.DataClient.constructor | src/DateClient.ts:83-104 | the pub/sub layer is created for this data client with its fleet size and password |
| DataClients.DataClient.Create | src/DateClient.ts:83-86 | construction fails exactly when validation does, with the same error |
| DataClients.DataClient.GetStats | src/DateClient.ts:106-166 | with only complete records, the promise resolves with the fleet-wide total of the present ones, in key order; it never settles exactly when some stored record is incomplete (no `memoryUsage`), as the legacy client's records are |
| DataClients.AbsentStoredAddsNothing | src/DateClient.ts:124-145 | in the data client's `getStats`, a key whose stored value is absent or empty adds no record, so nothing to any total or list |
| DataClients.AddStored | src/DateClient.ts:123-145 | the callback for one scanned key turns the total of the keys before it into the total including it: a complete record is folded in, an absent value adds nothing |
| DataClients.DataClient.EvalAll | src/DateClient.ts:181-184 | without a password, returns the error and leaves the pub/sub layer unchanged; with one, registers and publishes the evaluation request |
| DataClients.DataClient.GetGuildByID | src/DateClient.ts:173-175 | delegates to the pub/sub layer's guild request |
| DataClients.DataClient.GetUserByID | src/DateClient.ts:177-179 | delegates to the pub/sub layer's user request |
| DataClients.NothingStored | src/DateClient.ts:124-145 | when no key holds a record, the total is all zeros with empty shard and cluster lists |

## Left out

- Redis connections, the publish/subscribe transport, `scanStream` and its chunks, `setInterval`/`setTimeout` scheduling and async interleaving are not modelled. Published messages and emitted events are logs, and deadlines, replies and lock outcomes are explicit method calls in whatever order the caller chooses. Inside a chunk, the source adds records in whatever order their `get` calls complete; the model adds them in key order.
- `JSON.parse`/`JSON.stringify` and `toJSON` are not modelled. Messages and records arrive decoded, and guild, user and evaluation payloads are opaque strings.
- PubSub.PubSub.HandleMessage: requires that a message on a built-in channel is decoded as that channel's record; an application message sent on a built-in channel name is outside the model.
- PubSub.PubSub.HandleMessage: `eval(message.script)` is arbitrary code. Its result, or `undefined` when it throws, is a parameter.
- The cluster's own guilds, users and statistics snapshot are parameters of `HandleMessage`. Eris shard internals, `process.memoryUsage` and uptime are not modelled.
- PubSub.PubSub.Sub: a handler is an opaque number, and calling it is recorded in the dispatch log.
- The `Date.now()+Math.random()` correlation ids of `evalAll` and `getStats` are parameters.
- Numbers are unbounded integers. Floating point, `NaN` and non-integral counts are not modelled. The completion test is the exact integer form described above.
- LegacyGateway.LegacyGatewayClient.Queue: the retry after 5 seconds is recorded as an event, not re-run. `getFirstShard` is a parameter.
- LegacyGateway.LegacyGatewayClient.OnShardDisconnect: the acquire it starts settles later, through a separate `SettleAcquire` call.
- Gateway shard statuses are the four values of the statistics enum. Eris's other states (identifying, resuming) fall outside them.
- ShardingGateway.ShardingGatewayClient.OnShardReady and OnReady: the listeners of one event run one after another, each call's log entries together. In the source each listener's lock call starts at once and its `extendedLock` or `releasedLock` is emitted after the await, so those emissions may come later and in another order.
- ShardingGateway.ShardingGatewayClient.Queue: `XShardManager` is only recorded by its batch size, because its methods in src/sharding/XShardManager.ts are empty stubs. The `shardDisconnect` listener has an empty body and is not modelled.
- `ShardingGateway.ShardingGatewayClient.ExtendLock` and `ReleaseLock` treat any settled promise as success, even one that resolves with an error value, as the source does.
- The stats interval that writes a legacy cluster's record to Redis is not modelled; the stored records are the input of `GetStats`.
- `src/stats.ts` declares `CONNECTING = 'ready'`, which collides with `READY`. It only declares types, and the model's status enum keeps the four statuses distinct, following src/DateClient.ts.
- The `dist/` builds, `src/pubsub/PubSub.ts` (a stub that publishes to fixed channels), the demos under `example/` and `examples/`, and the type declarations in src/util/lock.ts are not part of this model.
