/** The newer gateway client of src/sharding/GatewayClient.ts: constructor
    validation, the lock key and options, the lock wrappers and the lifecycle
    listeners that call them.

    The lock is abstract: each call on it is recorded in the client's log and
    how its promise settles is a parameter. Events the client emits, and its
    `connect` call, go to the same log, so the log shows their order. */
module ShardingGateway {
  import opened Common

  /** The gateway library's `maxShards` option: `'auto'` or a number. */
  datatype MaxShards = Auto | Count(n: int)

  datatype Options = Options(
    maxShards: Option<MaxShards>, shardsPerCluster: int, clusterID: int, lockKey: Option<string>)

  datatype ConfigError = MaxShardsNotFixed

  /** `maxShards` is neither `'auto'` nor falsy (absent or zero). */
  predicate FixedMaxShards(m: Option<MaxShards>) {
    m.Some? && m.value.Count? && m.value.n != 0
  }

  /** The options handed to the lock: a timeout of 5000 ms for each shard of
      the cluster, unlimited retries and a one-second retry delay. */
  function LockOptionsFor(shardsPerCluster: int): (l: LockOptions)
    ensures l.retries == -1 && l.delay == 1000
    ensures l.timeout % 5000 == 0 && l.timeout / 5000 == shardsPerCluster
    ensures shardsPerCluster > 0 ==> l.timeout >= 5000
  {
    LockOptions(shardsPerCluster * 5000, -1, 1000)
  }

  /** The timeout is proportional to the cluster size: the timeouts of two
      cluster sizes add up to the timeout of their sum. */
  lemma LockTimeoutAdditive(a: int, b: int)
    ensures LockOptionsFor(a + b).timeout == LockOptionsFor(a).timeout + LockOptionsFor(b).timeout
  {
  }

  /** A larger cluster never gets a shorter timeout. */
  lemma LockTimeoutMonotone(a: int, b: int)
    requires a <= b
    ensures LockOptionsFor(a).timeout <= LockOptionsFor(b).timeout
  {
  }

  datatype Event =
    | LockAcquire(key: string)
    | LockExtend(duration: int)
    | LockRelease
    | AcquiredLock
    | ExtendedLock(duration: int)
    | ReleasedLock
    | Connect

  /** What one `extendLock(duration)` call adds to the log. */
  function Extension(duration: int, outcome: LockOutcome): seq<Event> {
    [LockExtend(duration)] + (if outcome != Rejected then [ExtendedLock(duration)] else [])
  }

  /** What one `releaseLock` call adds to the log. */
  function Release(outcome: LockOutcome): seq<Event> {
    [LockRelease] + (if outcome != Rejected then [ReleasedLock] else [])
  }

  lemma ExtensionCounts(duration: int, outcome: LockOutcome)
    ensures Occurrences(Extension(duration, outcome), LockExtend(duration)) == 1
    ensures Occurrences(Extension(duration, outcome), LockRelease) == 0
  {
    var e := Extension(duration, outcome);
    assert e[0] == LockExtend(duration);
    OccurrencesAbsent(e[1..], LockExtend(duration));
    OccurrencesAbsent(e, LockRelease);
  }

  lemma ReleaseCount(outcome: LockOutcome)
    ensures Occurrences(Release(outcome), LockRelease) == 1
  {
    var r := Release(outcome);
    assert r[0] == LockRelease;
    OccurrencesAbsent(r[1..], LockRelease);
  }

  /** The log of one `extendLock(duration)` call per outcome, in order: one
      extension request each, and no release. */
  function Extensions(duration: int, outcomes: seq<LockOutcome>): (es: seq<Event>)
    ensures Occurrences(es, LockExtend(duration)) == |outcomes|
    ensures Occurrences(es, LockRelease) == 0
  {
    if outcomes == [] then []
    else
      var init, last := Extensions(duration, outcomes[..|outcomes| - 1]), Extension(duration, outcomes[|outcomes| - 1]);
      OccurrencesAppend(init, last, LockExtend(duration));
      OccurrencesAppend(init, last, LockRelease);
      ExtensionCounts(duration, outcomes[|outcomes| - 1]);
      init + last
  }

  lemma ExtensionsSnoc(duration: int, outcomes: seq<LockOutcome>, k: nat)
    requires k < |outcomes|
    ensures Extensions(duration, outcomes[..k + 1]) == Extensions(duration, outcomes[..k]) + Extension(duration, outcomes[k])
  {
    assert outcomes[..k + 1][..k] == outcomes[..k];
  }

  lemma ReleasesSnoc(outcomes: seq<LockOutcome>, k: nat)
    requires k < |outcomes|
    ensures Releases(outcomes[..k + 1]) == Releases(outcomes[..k]) + Release(outcomes[k])
  {
    assert outcomes[..k + 1][..k] == outcomes[..k];
  }

  /** The log of one `releaseLock` call per outcome, in order: one release each. */
  function Releases(outcomes: seq<LockOutcome>): (rs: seq<Event>)
    ensures Occurrences(rs, LockRelease) == |outcomes|
  {
    if outcomes == [] then []
    else
      var init, last := Releases(outcomes[..|outcomes| - 1]), Release(outcomes[|outcomes| - 1]);
      OccurrencesAppend(init, last, LockRelease);
      ReleaseCount(outcomes[|outcomes| - 1]);
      init + last
  }

  class ShardingGatewayClient {
    const options: Options
    const autoreconnect: bool
    const lockOptions: LockOptions

    /** The batch size of the installed cross-shard manager, if one was installed. */
    var xShardManager: Option<int>
    /** How many times `setupListeners` has run; each run registered one
        `shardReady` listener, and they all stay registered. */
    var setups: nat
    /** The `once('ready')` listeners registered and not yet fired. */
    var pendingReady: nat
    var log: seq<Event>

    /** Only a firing `once('ready')` listener releases the lock, once: the
        releases in the log and the listeners still pending account for every
        `setupListeners` run. */
    ghost predicate Valid()
      reads this
    {
      Occurrences(log, LockRelease) + pendingReady == setups
    }

    /** The constructor ends with one `setupListeners` call. */
    constructor (o: Options)
      requires FixedMaxShards(o.maxShards)
      ensures Valid()
      ensures options == o && !autoreconnect && lockOptions == LockOptionsFor(o.shardsPerCluster)
      ensures xShardManager == None && setups == 1 && pendingReady == 1 && log == []
    {
      options := o;
      autoreconnect := false;
      lockOptions := LockOptionsFor(o.shardsPerCluster);
      xShardManager := None;
      setups, pendingReady := 0, 0;
      log := [];
      new;
      SetupListeners();
    }

    /** `setupListeners`: registers one more `shardReady` listener and one more
        `once('ready')` listener. Its `shardDisconnect` listener does nothing. */
    method SetupListeners()
      requires Valid()
      modifies this`setups, this`pendingReady
      ensures Valid()
      ensures setups == old(setups) + 1 && pendingReady == old(pendingReady) + 1
    {
      setups := setups + 1;
      pendingReady := pendingReady + 1;
    }

    /** Construction throws exactly when `maxShards` is `'auto'` or falsy. */
    static method Create(o: Options) returns (r: Result<ShardingGatewayClient, ConfigError>)
      ensures r.Err? <==> !FixedMaxShards(o.maxShards)
      ensures r.Err? ==> r.error == MaxShardsNotFixed
      ensures r.Ok? ==> fresh(r.value) && r.value.Valid() && r.value.options == o && !r.value.autoreconnect
      ensures r.Ok? ==> r.value.lockOptions == LockOptionsFor(o.shardsPerCluster) && r.value.log == []
      ensures r.Ok? ==> r.value.setups == 1 && r.value.pendingReady == 1
    {
      if !FixedMaxShards(o.maxShards) {
        return Err(MaxShardsNotFixed);
      }
      var c := new ShardingGatewayClient(o);
      return Ok(c);
    }

    /** The `key` getter. */
    function Key(): string
      reads this
    {
      LockKeyOrDefault(options.lockKey)
    }

    /** `acquireLock`: once the lock is acquired, emits `acquiredLock`; a
        rejected acquire propagates as an error and emits nothing. */
    method AcquireLock(outcome: LockOutcome) returns (acquired: bool)
      requires Valid()
      modifies this`log
      ensures Valid()
      ensures acquired <==> outcome != Rejected
      ensures log == old(log) + [LockAcquire(Key())] + (if acquired then [AcquiredLock] else [])
    {
      log := log + [LockAcquire(Key())];
      OccurrencesAppend(old(log), [LockAcquire(Key())], LockRelease);
      if outcome == Rejected {
        return false;
      }
      OccurrencesAppend(old(log) + [LockAcquire(Key())], [AcquiredLock], LockRelease);
      log := log + [AcquiredLock];
      return true;
    }

    /** `extendLock(duration)`: `false` with nothing emitted when the extension
        fails; otherwise emits `extendedLock(duration)` and returns `true`. */
    method ExtendLock(duration: int, outcome: LockOutcome) returns (extended: bool)
      requires Valid()
      modifies this`log
      ensures Valid()
      ensures extended <==> outcome != Rejected
      ensures log == old(log) + [LockExtend(duration)] + (if extended then [ExtendedLock(duration)] else [])
    {
      log := log + [LockExtend(duration)];
      OccurrencesAppend(old(log), [LockExtend(duration)], LockRelease);
      if outcome == Rejected {
        return false;
      }
      OccurrencesAppend(old(log) + [LockExtend(duration)], [ExtendedLock(duration)], LockRelease);
      log := log + [ExtendedLock(duration)];
      return true;
    }

    /** `releaseLock`: `false` with nothing emitted when the release fails;
        otherwise emits `releasedLock` and returns `true`. Only the `ready`
        listener calls it. */
    method ReleaseLock(outcome: LockOutcome) returns (released: bool)
      modifies this`log
      ensures released <==> outcome != Rejected
      ensures log == old(log) + [LockRelease] + (if released then [ReleasedLock] else [])
      ensures Occurrences(log, LockRelease) == Occurrences(old(log), LockRelease) + 1
    {
      log := log + [LockRelease];
      OccurrencesAppend(old(log), [LockRelease], LockRelease);
      if outcome == Rejected {
        return false;
      }
      OccurrencesAppend(old(log) + [LockRelease], [ReleasedLock], LockRelease);
      log := log + [ReleasedLock];
      return true;
    }

    /** `queue(largeBotSharding)`: installs a cross-shard manager for a batch
        size above one, then connects once the lock is acquired; a rejected
        acquire ends the call before `connect`. */
    method Queue(largeBotSharding: int, outcome: LockOutcome) returns (connected: bool)
      requires Valid()
      modifies this`log, this`xShardManager
      ensures Valid()
      ensures xShardManager == if largeBotSharding > 1 then Some(largeBotSharding) else old(xShardManager)
      ensures connected <==> outcome != Rejected
      ensures log == old(log) + [LockAcquire(Key())] + (if connected then [AcquiredLock, Connect] else [])
    {
      if largeBotSharding > 1 {
        xShardManager := Some(largeBotSharding);
      }
      connected := AcquireLock(outcome);
      if connected {
        OccurrencesAppend(log, [Connect], LockRelease);
        log := log + [Connect];
      }
    }

    /** A `shardReady` event: each registered `shardReady` listener, in
        registration order, extends the lock by 8000 ms. `outcomes` says how
        each extension settles. */
    method OnShardReady(outcomes: seq<LockOutcome>)
      requires Valid() && |outcomes| == setups
      modifies this`log
      ensures Valid()
      ensures log == old(log) + Extensions(8000, outcomes)
    {
      var k := 0;
      while k < |outcomes|
        invariant 0 <= k <= |outcomes|
        invariant Valid()
        invariant log == old(log) + Extensions(8000, outcomes[..k])
      {
        ExtensionsSnoc(8000, outcomes, k);
        var _ := ExtendLock(8000, outcomes[k]);
        k := k + 1;
      }
      assert outcomes[..k] == outcomes;
    }

    /** A `ready` event: each pending `once('ready')` listener, in registration
        order, is removed and releases the lock. `outcomes` says how each
        release settles. A `ready` with none pending changes nothing. */
    method OnReady(outcomes: seq<LockOutcome>)
      requires Valid() && |outcomes| == pendingReady
      modifies this`log, this`pendingReady
      ensures Valid() && pendingReady == 0
      ensures log == old(log) + Releases(outcomes)
      ensures Occurrences(log, LockRelease) == Occurrences(old(log), LockRelease) + old(pendingReady)
    {
      var k := 0;
      while k < |outcomes|
        invariant 0 <= k <= |outcomes|
        invariant pendingReady == |outcomes| - k
        invariant Valid()
        invariant log == old(log) + Releases(outcomes[..k])
      {
        ReleasesSnoc(outcomes, k);
        pendingReady := pendingReady - 1;
        var _ := ReleaseLock(outcomes[k]);
        k := k + 1;
      }
      assert outcomes[..k] == outcomes;
    }
  }

  /** Every release in the log was made by a fired `once('ready')` listener, so
      there are never more releases than `setupListeners` runs, and at most one
      while only the constructor has run it. */
  lemma ReleasesBoundedBySetups(c: ShardingGatewayClient)
    requires c.Valid()
    ensures Occurrences(c.log, LockRelease) <= c.setups
    ensures c.setups == 1 ==> Occurrences(c.log, LockRelease) <= 1
  {
  }
}
