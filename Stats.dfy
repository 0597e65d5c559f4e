/** The per-cluster and fleet-wide statistics records (src/DateClient.ts:4-50,
    src/stats.ts) and the fold that turns the per-cluster records into the
    fleet-wide total. The fold is written once here: `formatStats` in the
    pub/sub layer and `getStats` in the data client both perform it. */
module Stats {
  import opened Common

  datatype ShardStatus = Ready | Handshaking | Disconnected | Connecting

  datatype MemoryUsage = MemoryUsage(rss: int, heapUsed: int)

  datatype ShardStats = ShardStats(status: ShardStatus, id: int, latency: Option<int>, guilds: int)

  /** What one cluster reports about itself. */
  datatype RawClusterStats = RawClusterStats(
    id: int, guilds: int, users: int, voice: int,
    shards: seq<ShardStats>, memoryUsage: MemoryUsage, uptime: int)

  /** The entry the fleet-wide total keeps for each cluster. */
  datatype ClusterStats = ClusterStats(
    id: int, shards: seq<int>, guilds: int, users: int, voice: int,
    memoryUsage: MemoryUsage, uptime: int)

  /** The fleet-wide total. */
  datatype Stats = Stats(
    guilds: int, users: int, voice: int, shards: seq<ShardStats>,
    memoryUsage: MemoryUsage, clusters: seq<ClusterStats>)

  /** The starting value of every fold: all counters zero, no shards, no clusters. */
  const Zero: Stats := Stats(0, 0, 0, [], MemoryUsage(0, 0), [])

  // ---------------------------------------------------------------------------
  // Reference definitions: sums, concatenations and filtering over sequences.

  function Sum<T>(xs: seq<T>, f: T -> int): int {
    if xs == [] then 0 else f(xs[0]) + Sum(xs[1..], f)
  }

  function Concat<T, U>(xs: seq<T>, f: T -> seq<U>): seq<U> {
    if xs == [] then [] else f(xs[0]) + Concat(xs[1..], f)
  }

  /** The values of the keys whose stored value is present and non-empty, in key order. */
  function Present<T>(xs: seq<Option<T>>): seq<T> {
    if xs == [] then []
    else (if xs[0].Some? then [xs[0].value] else []) + Present(xs[1..])
  }

  lemma {:induction false} SumAppend<T>(xs: seq<T>, ys: seq<T>, f: T -> int)
    ensures Sum(xs + ys, f) == Sum(xs, f) + Sum(ys, f)
  {
    if xs == [] {
      assert xs + ys == ys;
    } else {
      assert (xs + ys)[1..] == xs[1..] + ys;
      SumAppend(xs[1..], ys, f);
    }
  }

  lemma {:induction false} ConcatAppend<T, U>(xs: seq<T>, ys: seq<T>, f: T -> seq<U>)
    ensures Concat(xs + ys, f) == Concat(xs, f) + Concat(ys, f)
  {
    if xs == [] {
      assert xs + ys == ys;
    } else {
      assert (xs + ys)[1..] == xs[1..] + ys;
      ConcatAppend(xs[1..], ys, f);
    }
  }

  lemma {:induction false} PresentAppend<T>(xs: seq<Option<T>>, ys: seq<Option<T>>)
    ensures Present(xs + ys) == Present(xs) + Present(ys)
  {
    if xs == [] {
      assert xs + ys == ys;
    } else {
      var head := if xs[0].Some? then [xs[0].value] else [];
      assert (xs + ys)[0] == xs[0];
      assert (xs + ys)[1..] == xs[1..] + ys;
      PresentAppend(xs[1..], ys);
      assert Present(xs + ys) == head + (Present(xs[1..]) + Present(ys));
      assert head + (Present(xs[1..]) + Present(ys)) == (head + Present(xs[1..])) + Present(ys);
    }
  }

  /** A key whose stored value is absent or empty contributes nothing. */
  lemma AbsentContributesNothing<T>(xs: seq<Option<T>>, ys: seq<Option<T>>)
    ensures Present(xs + [None] + ys) == Present(xs + ys)
  {
    PresentAppend(xs + [None], ys);
    PresentAppend(xs, [None]);
    PresentAppend(xs, ys);
  }

  // ---------------------------------------------------------------------------
  // The fleet-wide aggregate, stated declaratively.

  function GuildsOf(c: RawClusterStats): int { c.guilds }
  function UsersOf(c: RawClusterStats): int { c.users }
  function VoiceOf(c: RawClusterStats): int { c.voice }
  function RssOf(c: RawClusterStats): int { c.memoryUsage.rss }
  function HeapUsedOf(c: RawClusterStats): int { c.memoryUsage.heapUsed }
  function ShardsOf(c: RawClusterStats): seq<ShardStats> { c.shards }
  function ShardCountOf(c: RawClusterStats): int { |c.shards| }

  /** `shards.map(s => s.id)` */
  function ShardIds(shards: seq<ShardStats>): seq<int> {
    seq(|shards|, k requires 0 <= k < |shards| => shards[k].id)
  }

  /** The cluster entry recorded for one cluster's report. */
  function Summary(c: RawClusterStats): ClusterStats {
    ClusterStats(c.id, ShardIds(c.shards), c.guilds, c.users, c.voice, c.memoryUsage, c.uptime)
  }

  /** The fleet-wide total of a sequence of reports: every counter is the sum
      over the reports, `shards` is the concatenation of their shard lists in
      input order and `clusters` holds one entry per report, in input order. */
  function Aggregate(rs: seq<RawClusterStats>): Stats {
    Stats(
      Sum(rs, GuildsOf), Sum(rs, UsersOf), Sum(rs, VoiceOf),
      Concat(rs, ShardsOf),
      MemoryUsage(Sum(rs, RssOf), Sum(rs, HeapUsedOf)),
      seq(|rs|, k requires 0 <= k < |rs| => Summary(rs[k])))
  }

  /** Combining two partial totals. */
  function Merge(a: Stats, b: Stats): Stats {
    Stats(
      a.guilds + b.guilds, a.users + b.users, a.voice + b.voice,
      a.shards + b.shards,
      MemoryUsage(a.memoryUsage.rss + b.memoryUsage.rss, a.memoryUsage.heapUsed + b.memoryUsage.heapUsed),
      a.clusters + b.clusters)
  }

  /** With no reports, the total is all zeros with no shards and no clusters. */
  lemma AggregateOfNothing()
    ensures Aggregate([]) == Zero
  {
    assert Aggregate([]).clusters == [];
  }

  /** The total of two batches of reports is the merge of their totals: the
      replies that arrived before a deadline give exactly their own share. */
  lemma AggregateAppend(a: seq<RawClusterStats>, b: seq<RawClusterStats>)
    ensures Aggregate(a + b) == Merge(Aggregate(a), Aggregate(b))
  {
    SumAppend(a, b, GuildsOf);
    SumAppend(a, b, UsersOf);
    SumAppend(a, b, VoiceOf);
    SumAppend(a, b, RssOf);
    SumAppend(a, b, HeapUsedOf);
    ConcatAppend(a, b, ShardsOf);
    assert Aggregate(a + b).clusters == Aggregate(a).clusters + Aggregate(b).clusters;
  }

  /** One more report adds its counters, appends its shards and one cluster entry. */
  lemma AggregateSnoc(rs: seq<RawClusterStats>, c: RawClusterStats)
    ensures Aggregate(rs + [c]) == Merge(Aggregate(rs), Stats(
      c.guilds, c.users, c.voice, c.shards, c.memoryUsage, [Summary(c)]))
  {
    AggregateAppend(rs, [c]);
    assert [c][1..] == [];
    assert Concat([c], ShardsOf) == c.shards;
    assert Aggregate([c]).clusters == [Summary(c)];
    assert Sum([c], GuildsOf) == c.guilds;
    assert Sum([c], UsersOf) == c.users;
    assert Sum([c], RssOf) == c.memoryUsage.rss;
    assert Sum([c], VoiceOf) == c.voice;
    assert Sum([c], HeapUsedOf) == c.memoryUsage.heapUsed;
    assert Aggregate([c]) == Stats(c.guilds, c.users, c.voice, c.shards,
                                   MemoryUsage(c.memoryUsage.rss, c.memoryUsage.heapUsed), [Summary(c)]);
  }

  /** Shard `j` of report `k` sits in the total's shard list right after the
      shards of the reports before it. */
  lemma {:induction false} ShardPosition(rs: seq<RawClusterStats>, k: nat, j: nat)
    requires k < |rs| && j < |rs[k].shards|
    ensures 0 <= Sum(rs[..k], ShardCountOf) &&
            Sum(rs[..k], ShardCountOf) + j < |Aggregate(rs).shards| &&
            Aggregate(rs).shards[Sum(rs[..k], ShardCountOf) + j] == rs[k].shards[j]
  {
    assert Concat(rs, ShardsOf) == rs[0].shards + Concat(rs[1..], ShardsOf);
    if k == 0 {
      assert rs[..0] == [];
    } else {
      ShardPosition(rs[1..], k - 1, j);
      assert rs[..k] == [rs[0]] + rs[1..][..k - 1];
      SumAppend([rs[0]], rs[1..][..k - 1], ShardCountOf);
      assert [rs[0]][1..] == [];
      assert Sum([rs[0]], ShardCountOf) == |rs[0].shards|;
    }
  }

  /** Each cluster entry carries that report's identity, counters, memory usage
      and uptime, and lists exactly that report's shard ids, in order. */
  lemma ClusterEntry(rs: seq<RawClusterStats>, k: nat)
    requires k < |rs|
    ensures |Aggregate(rs).clusters| == |rs|
    ensures Aggregate(rs).clusters[k] == Summary(rs[k])
    ensures var e := Aggregate(rs).clusters[k];
      && e.id == rs[k].id && e.guilds == rs[k].guilds && e.users == rs[k].users && e.voice == rs[k].voice
      && e.memoryUsage == rs[k].memoryUsage && e.uptime == rs[k].uptime
    ensures |Aggregate(rs).clusters[k].shards| == |rs[k].shards|
    ensures forall j | 0 <= j < |rs[k].shards| :: Aggregate(rs).clusters[k].shards[j] == rs[k].shards[j].id
  {
  }

  /** When every cluster reports `n` shards, the total lists `n` shards per report
      (three clusters of two shards give six shards and three cluster entries). */
  lemma {:induction false} UniformShardCount(rs: seq<RawClusterStats>, n: nat)
    requires forall k | 0 <= k < |rs| :: |rs[k].shards| == n
    ensures |Aggregate(rs).shards| == n * |rs|
    ensures |Aggregate(rs).clusters| == |rs|
  {
    if rs != [] {
      UniformShardCount(rs[1..], n);
      assert Concat(rs, ShardsOf) == rs[0].shards + Concat(rs[1..], ShardsOf);
    }
  }

  // ---------------------------------------------------------------------------
  // The fold step, as the source performs it on a mutable accumulator.

  /** Adds one cluster's report to the running total `data`: the counters are
      increased, each shard is pushed in turn, and one cluster entry is appended.
      `folded` names the reports `data` already totals. */
  method AddCluster(data: Stats, c: RawClusterStats, ghost folded: seq<RawClusterStats>) returns (next: Stats)
    requires data == Aggregate(folded)
    ensures next == Aggregate(folded + [c])
  {
    var counted := data.(guilds := data.guilds + c.guilds,
                         users := data.users + c.users,
                         voice := data.voice + c.voice);
    next := counted;
    var j := 0;
    while j < |c.shards|
      invariant 0 <= j <= |c.shards|
      invariant next == counted.(shards := data.shards + c.shards[..j])
    {
      next := next.(shards := next.shards + [c.shards[j]]);
      j := j + 1;
    }
    assert c.shards[..j] == c.shards;
    next := next.(memoryUsage := MemoryUsage(next.memoryUsage.rss + c.memoryUsage.rss,
                                             next.memoryUsage.heapUsed + c.memoryUsage.heapUsed));
    next := next.(clusters := next.clusters + [Summary(c)]);
    AggregateSnoc(folded, c);
  }
}
