/** The legacy gateway client of src/GatewayClient.ts: the shard range it
    computes, the `hasLock`/`fullyStarted` admission state driven by the
    lifecycle listeners, and the fold inside `getStats`.

    The lock binding and the gateway library are abstract: how the lock's
    promise settles is a parameter, the client's shards are a sequence of
    id/status pairs in collection order, and `connect` calls are recorded in
    `events`. */
module LegacyGateway {
  import opened Common
  import opened Stats

  /** Why construction throws. Without options, reading `options.erisOptions`
      for the base class's constructor throws a `TypeError` before the
      "No options provided" check is reached, so that check's error is never
      raised: `OptionsUndefined` stands for the `TypeError`. */
  datatype ConfigError = OptionsUndefined | NoShardsPerCluster

  datatype Options = Options(shardsPerCluster: Option<int>, lockKey: Option<string>, redisPassword: Option<string>)

  datatype Config = Config(shardsPerCluster: int, lockKey: string, redisPassword: Option<string>)

  /** `Number.MAX_SAFE_INTEGER` */
  const MaxSafeInteger: int := 9007199254740991

  /** The constructor's checks: no options throws (a `TypeError`), and a falsy
      `shardsPerCluster` throws. */
  function ValidateOptions(o: Option<Options>): (r: Result<Config, ConfigError>)
    ensures o.None? <==> r == Err(OptionsUndefined)
    ensures r.Ok? <==> o.Some? && o.value.shardsPerCluster.Some? && o.value.shardsPerCluster.value != 0
    ensures r.Ok? ==> r.value.shardsPerCluster == o.value.shardsPerCluster.value && r.value.shardsPerCluster != 0
    ensures r.Ok? ==> r.value.lockKey != "" && r.value.lockKey == LockKeyOrDefault(o.value.lockKey)
  {
    if o.None? then Err(OptionsUndefined)
    else if o.value.shardsPerCluster.None? || o.value.shardsPerCluster.value == 0 then Err(NoShardsPerCluster)
    else Ok(Config(o.value.shardsPerCluster.value, LockKeyOrDefault(o.value.lockKey), o.value.redisPassword))
  }

  // ---------------------------------------------------------------------------
  // Shard ranges.

  /** An inclusive range of shard ids. */
  datatype ShardRange = ShardRange(first: int, last: int)

  predicate InRange(r: ShardRange, shard: int) {
    r.first <= shard <= r.last
  }

  /** `calculateThisShards`: cluster `index` owns `shardsPerCluster` consecutive ids
      starting at `shardsPerCluster * index`. */
  function ThisShards(shardsPerCluster: int, index: int): (r: ShardRange)
    ensures r.last - r.first + 1 == shardsPerCluster
    ensures r.first == shardsPerCluster * index
  {
    ShardRange(shardsPerCluster * index, shardsPerCluster * index + (shardsPerCluster - 1))
  }

  /** Cluster `index + 1` starts right after cluster `index` ends. */
  lemma NextClusterFollows(shardsPerCluster: int, index: int)
    ensures ThisShards(shardsPerCluster, index + 1).first == ThisShards(shardsPerCluster, index).last + 1
  {
    assert shardsPerCluster * (index + 1) == shardsPerCluster * index + shardsPerCluster;
  }

  /** Every non-negative shard id lies in the range of exactly one cluster,
      cluster `shard / shardsPerCluster`. */
  lemma OwnedByOneCluster(shardsPerCluster: int, shard: int, index: int)
    requires shardsPerCluster > 0 && shard >= 0
    ensures InRange(ThisShards(shardsPerCluster, shard / shardsPerCluster), shard)
    ensures InRange(ThisShards(shardsPerCluster, index), shard) <==> index == shard / shardsPerCluster
  {
    var q, s := shard / shardsPerCluster, shardsPerCluster;
    assert shard == s * q + shard % s;
    if InRange(ThisShards(s, index), shard) && index != q {
      if index < q {
        MulMonotone(s, index + 1, q);
      } else {
        MulMonotone(s, q + 1, index);
      }
    }
  }

  lemma MulMonotone(s: int, a: int, b: int)
    requires s > 0 && a <= b
    ensures s * a <= s * b
  {
    assert s * b - s * a == s * (b - a);
  }

  /** Nothing clamps the range to the fleet: when `shardsPerCluster` does not
      divide `maxShards`, the cluster owning the last shard reaches past it. */
  lemma RangeNotClamped(shardsPerCluster: int, maxShards: int)
    requires shardsPerCluster > 0 && maxShards > 0 && maxShards % shardsPerCluster != 0
    ensures ThisShards(shardsPerCluster, (maxShards - 1) / shardsPerCluster).last > maxShards - 1
  {
    var s, q := shardsPerCluster, (maxShards - 1) / shardsPerCluster;
    assert maxShards - 1 == s * q + (maxShards - 1) % s;
    NextMultiple(s, q);
  }

  /** The id right after the last id of cluster `q` is a multiple of `s`. */
  lemma NextMultiple(s: int, q: int)
    requires s > 0
    ensures (s * q + (s - 1) + 1) % s == 0
  {
    assert s * q + (s - 1) + 1 == s * (q + 1);
    QuotientOfMultiple(s, q + 1);
  }

  // ---------------------------------------------------------------------------
  // Shard statuses.

  datatype Shard = Shard(id: int, status: ShardStatus)

  predicate HasShard(shards: seq<Shard>, id: int) {
    exists k | 0 <= k < |shards| :: shards[k].id == id
  }

  /** `shards.filter(s => s.status === status).length` */
  function CountStatus(shards: seq<Shard>, status: ShardStatus): (n: nat)
    ensures n <= |shards|
  {
    if shards == [] then 0
    else (if shards[0].status == status then 1 else 0) + CountStatus(shards[1..], status)
  }

  /** The count equals the collection's size exactly when every shard has that status. */
  lemma {:induction false} CountAllIff(shards: seq<Shard>, status: ShardStatus)
    ensures CountStatus(shards, status) == |shards| <==> forall k | 0 <= k < |shards| :: shards[k].status == status
  {
    if shards != [] {
      CountAllIff(shards[1..], status);
      if forall k | 0 <= k < |shards| :: shards[k].status == status {
        assert forall k | 0 <= k < |shards| - 1 :: shards[1..][k].status == status;
      }
      if CountStatus(shards, status) == |shards| {
        forall k | 0 <= k < |shards| ensures shards[k].status == status {
          if k > 0 { assert shards[k] == shards[1..][k - 1]; }
        }
      }
    }
  }

  /** `shards.find(s => s.status === status)`, as a position. */
  function FirstWith(shards: seq<Shard>, status: ShardStatus): (r: Option<nat>)
    ensures r.Some? ==> r.value < |shards| && shards[r.value].status == status &&
                        forall k | 0 <= k < r.value :: shards[k].status != status
    ensures r.None? ==> forall k | 0 <= k < |shards| :: shards[k].status != status
  {
    if shards == [] then None
    else if shards[0].status == status then Some(0)
    else match FirstWith(shards[1..], status)
      case None => None
      case Some(k) => Some(k + 1)
  }

  // ---------------------------------------------------------------------------
  // The client.

  datatype Event =
    | AcquireRequested(key: string)
    | AcquiredLock
    | ReleaseRequested(key: string)
    | Connect
    | ShardConnect(id: int)
    | RetryScheduled

  /** How a call of `aquire` ends: resolved `true`, resolved `false`, or never
      (when the lock resolves with an error value, neither branch resolves it). */
  datatype AcquireResult = Acquired | Failed | Unsettled

  class LegacyGatewayClient {
    const shardsPerCluster: int
    const lockKey: string
    const redisPassword: Option<string>
    const lockOptions: LockOptions

    var autoreconnect: bool
    var firstShardID: Option<int>
    var lastShardID: Option<int>
    var hasLock: bool
    var fullyStarted: bool
    var events: seq<Event>

    constructor (cfg: Config)
      ensures shardsPerCluster == cfg.shardsPerCluster && lockKey == cfg.lockKey && redisPassword == cfg.redisPassword
      ensures lockOptions == LockOptions(cfg.shardsPerCluster * 7500, MaxSafeInteger, 100)
      ensures !autoreconnect && !hasLock && !fullyStarted
      ensures firstShardID == None && lastShardID == None && events == []
    {
      shardsPerCluster := cfg.shardsPerCluster;
      lockKey := cfg.lockKey;
      redisPassword := cfg.redisPassword;
      lockOptions := LockOptions(cfg.shardsPerCluster * 7500, MaxSafeInteger, 100);
      autoreconnect := false;
      firstShardID, lastShardID := None, None;
      hasLock, fullyStarted := false, false;
      events := [];
    }

    /** Construction: throws on invalid options, otherwise both flags start false. */
    static method Create(o: Option<Options>) returns (r: Result<LegacyGatewayClient, ConfigError>)
      ensures r.Err? <==> ValidateOptions(o).Err?
      ensures r.Err? ==> r.error == ValidateOptions(o).error
      ensures r.Ok? ==> fresh(r.value) && r.value.lockKey == ValidateOptions(o).value.lockKey
      ensures r.Ok? ==> !r.value.hasLock && !r.value.fullyStarted && !r.value.autoreconnect && r.value.events == []
    {
      var v := ValidateOptions(o);
      if v.Err? {
        return Err(v.error);
      }
      var c := new LegacyGatewayClient(v.value);
      return Ok(c);
    }

    /** The admission lock's key. */
    function IdentifyKey(): string {
      lockKey + ":shard:identify"
    }

    /** `aquire` once the lock's promise has settled: success sets `hasLock` and
        emits `acquiredLock`; failure leaves `hasLock` as it was. */
    method SettleAcquire(outcome: LockOutcome) returns (r: AcquireResult)
      modifies this`hasLock, this`events
      ensures outcome == Resolved ==> r == Acquired && hasLock && events == old(events) + [AcquiredLock]
      ensures outcome == ResolvedWithError ==> r == Unsettled && hasLock == old(hasLock) && events == old(events)
      ensures outcome == Rejected ==> r == Failed && hasLock == old(hasLock) && events == old(events)
    {
      match outcome {
        case Resolved =>
          hasLock := true;
          events := events + [AcquiredLock];
          r := Acquired;
        case ResolvedWithError =>
          r := Unsettled;
        case Rejected =>
          r := Failed;
      }
    }

    /** `queue`: stores this cluster's range, then acquires; connects on
        success, schedules a retry on failure. */
    method Queue(firstShard: int, outcome: LockOutcome) returns (r: AcquireResult)
      modifies this`firstShardID, this`lastShardID, this`hasLock, this`events
      ensures firstShardID == Some(ThisShards(shardsPerCluster, firstShard).first)
      ensures lastShardID == Some(ThisShards(shardsPerCluster, firstShard).last)
      ensures hasLock == (old(hasLock) || outcome == Resolved)
      ensures events == old(events) + [AcquireRequested(IdentifyKey())] +
        match outcome
        case Resolved => [AcquiredLock, Connect]
        case ResolvedWithError => []
        case Rejected => [RetryScheduled]
    {
      var range := ThisShards(shardsPerCluster, firstShard);
      firstShardID := Some(range.first);
      lastShardID := Some(range.last);
      events := events + [AcquireRequested(IdentifyKey())];
      r := SettleAcquire(outcome);
      if r == Acquired {
        events := events + [Connect];
      } else if r == Failed {
        events := events + [RetryScheduled];
      }
    }

    /** The `ready` listener. */
    method OnReady()
      modifies this`hasLock, this`fullyStarted, this`events
      ensures !hasLock && fullyStarted
      ensures events == old(events) + [ReleaseRequested(IdentifyKey())]
    {
      events := events + [ReleaseRequested(IdentifyKey())];
      hasLock := false;
      fullyStarted := true;
    }

    /** The `shardDisconnect` listener. Without the lock it starts an acquire
        but does not wait for it: the promise is always truthy, so the shard
        reconnects at once. The acquire settles later, through `SettleAcquire`. */
    method OnShardDisconnect(id: int, shards: seq<Shard>)
      modifies this`events
      ensures old(hasLock) ==> events == old(events)
      ensures !old(hasLock) ==>
        events == old(events) + [AcquireRequested(IdentifyKey())] + (if HasShard(shards, id) then [ShardConnect(id)] else [])
    {
      if !hasLock {
        events := events + [AcquireRequested(IdentifyKey())];
        if HasShard(shards, id) {
          events := events + [ShardConnect(id)];
        }
      }
    }

    /** The `shardReady` listener. */
    method OnShardReady(shards: seq<Shard>)
      modifies this`hasLock, this`events
      ensures (forall k | 0 <= k < |shards| :: shards[k].status == Ready) ==>
        !hasLock && events == old(events)
      ensures (exists k | 0 <= k < |shards| :: shards[k].status != Ready) ==>
        hasLock == old(hasLock) &&
        if fullyStarted && FirstWith(shards, Disconnected).Some?
        then events == old(events) + [ShardConnect(shards[FirstWith(shards, Disconnected).value].id)]
        else events == old(events)
    {
      CountAllIff(shards, Ready);
      if CountStatus(shards, Ready) == |shards| {
        hasLock := false;
      } else {
        var first := FirstWith(shards, Disconnected);
        if first.Some? && fullyStarted {
          events := events + [ShardConnect(shards[first.value].id)];
        }
      }
    }
  }

  // ---------------------------------------------------------------------------
  // The stored-statistics fold of `getStats`.

  datatype LegacyShardStats = LegacyShardStats(status: ShardStatus, id: int)

  datatype LegacyClusterStats = LegacyClusterStats(guilds: int, users: int, voice: int, shards: seq<LegacyShardStats>)

  datatype LegacyStats = LegacyStats(guilds: int, users: int, voice: int, shards: seq<LegacyShardStats>)

  function LegacyGuildsOf(c: LegacyClusterStats): int { c.guilds }
  function LegacyUsersOf(c: LegacyClusterStats): int { c.users }
  function LegacyVoiceOf(c: LegacyClusterStats): int { c.voice }
  function LegacyShardsOf(c: LegacyClusterStats): seq<LegacyShardStats> { c.shards }

  /** The totals `getStats` reports for a sequence of stored records, as the
      source computes them: the guild total adds each record's `users`, not
      its `guilds`. */
  function ReportedTotals(rs: seq<LegacyClusterStats>): LegacyStats {
    LegacyStats(Sum(rs, LegacyUsersOf), Sum(rs, LegacyUsersOf), Sum(rs, LegacyVoiceOf), Concat(rs, LegacyShardsOf))
  }

  /** One more record adds its user count twice, its voice count once, and appends its shards. */
  lemma ReportedTotalsSnoc(rs: seq<LegacyClusterStats>, c: LegacyClusterStats)
    ensures ReportedTotals(rs + [c]) == LegacyStats(
      ReportedTotals(rs).guilds + c.users, ReportedTotals(rs).users + c.users,
      ReportedTotals(rs).voice + c.voice, ReportedTotals(rs).shards + c.shards)
  {
    SumAppend(rs, [c], LegacyUsersOf);
    SumAppend(rs, [c], LegacyVoiceOf);
    ConcatAppend(rs, [c], LegacyShardsOf);
    assert [c][1..] == [];
    assert Sum([c], LegacyUsersOf) == c.users;
    assert Sum([c], LegacyVoiceOf) == c.voice;
    assert Concat([c], LegacyShardsOf) == c.shards;
  }

  /** The reported guild total is the user total: one record with 5 guilds and
      7 users is reported as 7 guilds. */
  lemma GuildTotalIsUserTotal()
    ensures ReportedTotals([LegacyClusterStats(5, 7, 0, [])]).guilds == 7
    ensures Sum([LegacyClusterStats(5, 7, 0, [])], LegacyGuildsOf) == 5
  {
    var c := LegacyClusterStats(5, 7, 0, []);
    assert [c][1..] == [];
  }

  /** One iteration of the fold: adds one record to the running totals. */
  method AddRecord(data: LegacyStats, c: LegacyClusterStats, ghost folded: seq<LegacyClusterStats>) returns (next: LegacyStats)
    requires data == ReportedTotals(folded)
    ensures next == ReportedTotals(folded + [c])
  {
    next := data.(guilds := data.guilds + c.users, users := data.users + c.users, voice := data.voice + c.voice);
    var j := 0;
    while j < |c.shards|
      invariant 0 <= j <= |c.shards|
      invariant next == LegacyStats(data.guilds + c.users, data.users + c.users, data.voice + c.voice, data.shards + c.shards[..j])
    {
      next := next.(shards := next.shards + [c.shards[j]]);
      j := j + 1;
    }
    assert c.shards[..j] == c.shards;
    ReportedTotalsSnoc(folded, c);
  }

  /** `getStats` over the values stored under the scanned keys, in key order
      (`None` for a key whose value is absent or empty). */
  method GetStats(stored: seq<Option<LegacyClusterStats>>) returns (data: LegacyStats)
    ensures data == ReportedTotals(Present(stored))
    ensures data.guilds == data.users == Sum(Present(stored), LegacyUsersOf)
    ensures data.voice == Sum(Present(stored), LegacyVoiceOf)
    ensures data.shards == Concat(Present(stored), LegacyShardsOf)
  {
    data := LegacyStats(0, 0, 0, []);
    var i := 0;
    while i < |stored|
      invariant 0 <= i <= |stored|
      invariant data == ReportedTotals(Present(stored[..i]))
    {
      assert stored[..i + 1] == stored[..i] + [stored[i]];
      PresentAppend(stored[..i], [stored[i]]);
      assert [stored[i]][1..] == [];
      if stored[i].Some? {
        assert Present([stored[i]]) == [stored[i].value];
        assert Present(stored[..i + 1]) == Present(stored[..i]) + [stored[i].value];
        data := AddRecord(data, stored[i].value, Present(stored[..i]));
      } else {
        assert Present([stored[i]]) == [];
        assert Present(stored[..i + 1]) == Present(stored[..i]);
      }
      i := i + 1;
    }
    assert stored[..i] == stored;
  }
}
