/** The data client of src/DateClient.ts: a process that holds no shards and
    reads the fleet's state, through the stored statistics records and through
    the pub/sub layer. */
module DataClients {
  import opened Common
  import opened Stats
  import PubSub

  datatype Options = Options(
    maxShards: Option<int>, shardsPerCluster: Option<int>,
    lockKey: Option<string>, redisPassword: Option<string>)

  datatype ConfigError = NoOptions | NoMaxShards | NoShardsPerCluster

  datatype Config = Config(maxShards: int, shardsPerCluster: int, lockKey: string, redisPassword: Option<string>)

  /** A number option is falsy when absent or zero. */
  predicate Given(n: Option<int>) {
    n.Some? && n.value != 0
  }

  /** The constructor's checks, in the source's order, and the lock key default. */
  function ValidateOptions(o: Option<Options>): (r: Result<Config, ConfigError>)
    ensures r == Err(NoOptions) <==> o.None?
    ensures r == Err(NoMaxShards) <==> o.Some? && !Given(o.value.maxShards)
    ensures r == Err(NoShardsPerCluster) <==> o.Some? && Given(o.value.maxShards) && !Given(o.value.shardsPerCluster)
    ensures r.Ok? ==> r.value.maxShards == o.value.maxShards.value && r.value.maxShards != 0
    ensures r.Ok? ==> r.value.shardsPerCluster == o.value.shardsPerCluster.value && r.value.shardsPerCluster != 0
    ensures r.Ok? ==> r.value.lockKey == LockKeyOrDefault(o.value.lockKey) && r.value.redisPassword == o.value.redisPassword
  {
    if o.None? then Err(NoOptions)
    else if !Given(o.value.maxShards) then Err(NoMaxShards)
    else if !Given(o.value.shardsPerCluster) then Err(NoShardsPerCluster)
    else Ok(Config(o.value.maxShards.value, o.value.shardsPerCluster.value,
                   LockKeyOrDefault(o.value.lockKey), o.value.redisPassword))
  }

  /** A value stored under a statistics key, once parsed. The legacy gateway
      client stores records with only `guilds`, `users`, `voice` and `shards`
      (src/GatewayClient.ts:109-119); `Incomplete` stands for a record without
      `memoryUsage`, `id` and `uptime`. */
  datatype StoredRecord = Complete(stats: RawClusterStats) | Incomplete

  /** The complete records among the stored values, in key order. */
  function CompleteRecords(stored: seq<Option<StoredRecord>>): seq<RawClusterStats> {
    if stored == [] then []
    else (if stored[0].Some? && stored[0].value.Complete? then [stored[0].value.stats] else [])
         + CompleteRecords(stored[1..])
  }

  lemma {:induction false} CompleteRecordsAppend(xs: seq<Option<StoredRecord>>, ys: seq<Option<StoredRecord>>)
    ensures CompleteRecords(xs + ys) == CompleteRecords(xs) + CompleteRecords(ys)
  {
    if xs == [] {
      assert xs + ys == ys;
    } else {
      assert (xs + ys)[0] == xs[0];
      assert (xs + ys)[1..] == xs[1..] + ys;
      CompleteRecordsAppend(xs[1..], ys);
    }
  }

  /** A key whose stored value is absent or empty adds no record. */
  lemma AbsentStoredAddsNothing(xs: seq<Option<StoredRecord>>, ys: seq<Option<StoredRecord>>)
    ensures CompleteRecords(xs + [None] + ys) == CompleteRecords(xs + ys)
  {
    var absent: seq<Option<StoredRecord>> := [None];
    assert CompleteRecords(absent) == [];
    CompleteRecordsAppend(xs + absent, ys);
    CompleteRecordsAppend(xs, absent);
    CompleteRecordsAppend(xs, ys);
  }

  predicate HasIncomplete(stored: seq<Option<StoredRecord>>) {
    exists k | 0 <= k < |stored| :: stored[k] == Some(Incomplete)
  }

  /** The callback `getStats` runs for one scanned key, on a value that is not
      incomplete: a complete record is added to the total, an absent value adds
      nothing. */
  method AddStored(data: Stats, v: Option<StoredRecord>, ghost done: seq<Option<StoredRecord>>) returns (next: Stats)
    requires v != Some(Incomplete)
    requires data == Aggregate(CompleteRecords(done))
    ensures next == Aggregate(CompleteRecords(done + [v]))
  {
    CompleteRecordsAppend(done, [v]);
    assert [v][1..] == [];
    match v {
      case Some(Complete(c)) =>
        assert CompleteRecords([v]) == [c];
        next := AddCluster(data, c, CompleteRecords(done));
      case None =>
        assert CompleteRecords(done + [v]) == CompleteRecords(done);
        next := data;
    }
  }

  /** How `getStats` ends: its promise resolves with the total, or it never
      settles. */
  datatype StatsOutcome = Settled(data: Stats) | Stalled

  /** The error `evalAll` returns when no password is configured. */
  datatype EvalError = PasswordRequired

  class DataClient {
    const config: Config
    const pubSub: PubSub.PubSub

    /** The pub/sub layer serves this data client with its own password. */
    ghost predicate Valid()
      reads this, pubSub
    {
      && pubSub.Valid()
      && pubSub.client == PubSub.DataClient(config.lockKey, PubSub.Count(config.maxShards), config.shardsPerCluster)
      && pubSub.redisPassword == config.redisPassword
    }

    constructor (cfg: Config)
      ensures Valid() && config == cfg && fresh(pubSub)
      ensures pubSub.client == PubSub.DataClient(cfg.lockKey, PubSub.Count(cfg.maxShards), cfg.shardsPerCluster)
      ensures pubSub.redisPassword == cfg.redisPassword
      ensures pubSub.resolvers == map[] && pubSub.published == []
    {
      config := cfg;
      pubSub := new PubSub.PubSub(PubSub.DataClient(cfg.lockKey, PubSub.Count(cfg.maxShards), cfg.shardsPerCluster),
                                  cfg.redisPassword);
    }

    /** Construction: throws exactly when validation fails. */
    static method Create(o: Option<Options>) returns (r: Result<DataClient, ConfigError>)
      ensures r.Err? <==> ValidateOptions(o).Err?
      ensures r.Err? ==> r.error == ValidateOptions(o).error
      ensures r.Ok? ==> fresh(r.value) && r.value.config == ValidateOptions(o).value && r.value.Valid()
    {
      var v := ValidateOptions(o);
      if v.Err? {
        return Err(v.error);
      }
      var c := new DataClient(v.value);
      return Ok(c);
    }

    /** `getStats` over the values stored under the scanned keys, in key order
        (`None` for a key whose value is absent or empty). With only complete
        records, it resolves with the fleet-wide total of the present ones.
        An incomplete record makes reading `memoryUsage.rss` throw: the
        chunk's `Promise.all` rejects, the paused scan never resumes, and the
        promise never settles. */
    method GetStats(stored: seq<Option<StoredRecord>>) returns (r: StatsOutcome)
      ensures r == Stalled <==> HasIncomplete(stored)
      ensures r.Settled? ==> r.data == Aggregate(CompleteRecords(stored))
    {
      var data := Zero;
      AggregateOfNothing();
      var i := 0;
      while i < |stored|
        invariant 0 <= i <= |stored|
        invariant forall k | 0 <= k < i :: stored[k] != Some(Incomplete)
        invariant data == Aggregate(CompleteRecords(stored[..i]))
      {
        if stored[i] == Some(Incomplete) {
          return Stalled;
        }
        data := AddStored(data, stored[i], stored[..i]);
        assert stored[..i + 1] == stored[..i] + [stored[i]];
        i := i + 1;
      }
      assert stored[..i] == stored;
      return Settled(data);
    }

    /** `evalAll`: without a password, returns the error and never reaches the
        pub/sub layer; otherwise registers the request there. */
    method EvalAll(script: string, id: string) returns (r: Result<nat, EvalError>)
      requires Valid()
      modifies pubSub`resolvers, pubSub`nextToken, pubSub`published
      ensures Valid()
      ensures !Truthy(config.redisPassword) ==> r == Err(PasswordRequired) && unchanged(pubSub)
      ensures Truthy(config.redisPassword) ==>
        && r == Ok(old(pubSub.nextToken))
        && pubSub.resolvers == old(pubSub.resolvers)[PubSub.EvalKey(id) := r.value]
        && pubSub.published == old(pubSub.published) + [PubSub.Eval(id, script, "")]
    {
      if !Truthy(config.redisPassword) {
        return Err(PasswordRequired);
      }
      var token := pubSub.EvalAllRequest(script, id);
      return Ok(token);
    }

    /** `getGuildByID`: a request through the pub/sub layer. */
    method GetGuildByID(id: string) returns (token: nat)
      requires Valid()
      modifies pubSub`resolvers, pubSub`nextToken, pubSub`published
      ensures Valid() && token == old(pubSub.nextToken)
      ensures pubSub.resolvers == old(pubSub.resolvers)[PubSub.GuildKey(id) := token]
      ensures pubSub.published == old(pubSub.published) + [PubSub.GetGuild(id)]
    {
      token := pubSub.GetGuildRequest(id);
    }

    /** `getUserByID`: a request through the pub/sub layer. */
    method GetUserByID(id: string) returns (token: nat)
      requires Valid()
      modifies pubSub`resolvers, pubSub`nextToken, pubSub`published
      ensures Valid() && token == old(pubSub.nextToken)
      ensures pubSub.resolvers == old(pubSub.resolvers)[PubSub.UserKey(id) := token]
      ensures pubSub.published == old(pubSub.published) + [PubSub.GetUser(id)]
    {
      token := pubSub.GetUserRequest(id);
    }
  }

  /** When no key holds a record, the total is all zeros with no shards and no clusters. */
  lemma {:induction false} NothingStored(stored: seq<Option<StoredRecord>>)
    requires forall k | 0 <= k < |stored| :: stored[k].None?
    ensures Aggregate(CompleteRecords(stored)) == Zero
  {
    if stored == [] {
      AggregateOfNothing();
    } else {
      NothingStored(stored[1..]);
      assert CompleteRecords(stored) == CompleteRecords(stored[1..]);
    }
  }
}
