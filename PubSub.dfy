/** The pub/sub layer of src/util/PubSub.ts: the per-process registry of
    pending requests (`returns`, `evals`, `stats`, `subs`), the handler of
    incoming broadcast messages and the fan-in collectors for `evalAll`
    and `getStats`.

    Transport is abstract: an incoming message arrives already decoded, a
    publish is appended to `published`, a timer firing is an explicit call of
    one of the `...Timeout` methods. A resolver is a promise, named by a
    token; `settled` holds the tokens whose promise is already resolved, and
    `resolutions` records every resolution that took effect. */
module PubSub {
  import opened Common
  import opened Stats

  /** The result of a remotely evaluated script; `Undefined` also stands for
      a script that threw. */
  datatype Output = Undefined | Value(json: Json)

  /** The body of a `returnStats` message. */
  datatype StatsReply = StatsReply(key: string, id: string, stats: RawClusterStats)

  /** A decoded broadcast message; the constructor determines the channel. */
  datatype Message =
    | GetGuild(id: string)
    | ReturnGuild(id: string, body: Json)
    | GetUser(id: string)
    | ReturnUser(id: string, body: Json)
    | Eval(id: string, script: string, clientId: string)
    | ReturnEval(id: string, output: Output)
    | StatsRequest(key: string, id: string)
    | ReturnStats(reply: StatsReply)
    | Custom(channel: string, body: Json)

  function Channel(m: Message): string {
    match m
    case GetGuild(_) => "getGuild"
    case ReturnGuild(_, _) => "returnGuild"
    case GetUser(_) => "getUser"
    case ReturnUser(_, _) => "returnUser"
    case Eval(_, _, _) => "eval"
    case ReturnEval(_, _) => "returnEval"
    case StatsRequest(_, _) => "stats"
    case ReturnStats(_) => "returnStats"
    case Custom(channel, _) => channel
  }

  const BuiltinChannels: set<string> :=
    {"getGuild", "returnGuild", "getUser", "returnUser", "eval", "returnEval", "stats", "returnStats"}

  /** A message on a built-in channel is always decoded as that channel's constructor. */
  predicate Decoded(m: Message) {
    m.Custom? ==> m.channel !in BuiltinChannels
  }

  /** What a pending request's promise is resolved with. */
  datatype Reply =
    | NoResult                    // `resolve(undefined)`
    | Received(message: Message)  // the reply message itself
    | Outputs(outputs: seq<Output>)
    | Aggregated(stats: Stats)

  datatype ShardCount = Auto | Count(n: int)

  /** The client the layer serves: a data client, or a gateway client with its
      bot user id. Both carry the fleet size parameters. */
  datatype Client =
    | DataClient(lockKey: string, maxShards: ShardCount, shardsPerCluster: int)
    | GatewayClient(lockKey: string, maxShards: ShardCount, shardsPerCluster: int, userId: string)

  /** The `clientid` sent with an eval request. */
  function ClientId(c: Client): string {
    if c.DataClient? then "" else c.userId
  }

  /** The data a gateway client answers from at the moment a request arrives. */
  datatype Local = Local(guilds: map<string, Json>, users: map<string, Json>, snapshot: RawClusterStats)

  /** The fan-in completion test `Number(maxShards) / shardsPerCluster === length`,
      stated on integers: `'auto'` and a zero divisor never complete. */
  predicate FleetComplete(c: Client, collected: nat) {
    c.maxShards.Count? && c.shardsPerCluster != 0 && collected * c.shardsPerCluster == c.maxShards.n
  }

  /** The integer test agrees with the exact quotient of the source's division. */
  lemma FleetCompleteIsQuotient(c: Client, collected: nat)
    ensures FleetComplete(c, collected) <==>
      c.maxShards.Count? && c.shardsPerCluster != 0 &&
      c.maxShards.n % c.shardsPerCluster == 0 && collected == c.maxShards.n / c.shardsPerCluster
  {
    if c.maxShards.Count? && c.shardsPerCluster != 0 {
      var n, s := c.maxShards.n, c.shardsPerCluster;
      if collected * s == n {
        QuotientOfMultiple(s, collected);
      }
      if n % s == 0 && collected == n / s {
        assert n == s * (n / s) + n % s;
      }
    }
  }

  /** Replies keep arriving one at a time, so a fan-in can complete at one count only. */
  lemma CompletionCountUnique(c: Client, a: nat, b: nat)
    requires FleetComplete(c, a) && FleetComplete(c, b)
    ensures a == b
  {
    assert (a - b) * c.shardsPerCluster == 0;
  }

  // ---------------------------------------------------------------------------
  // Registry keys.

  function GuildKey(id: string): string { "guild_" + id }
  function UserKey(id: string): string { "user_" + id }
  function EvalKey(id: string): string { "eval_" + id }
  function StatsKey(id: string): string { "stats_" + id }

  /** Keys of different request kinds never collide. */
  lemma KeysDisjoint(a: string, b: string)
    ensures GuildKey(a) != UserKey(b) && GuildKey(a) != EvalKey(b) && GuildKey(a) != StatsKey(b)
    ensures UserKey(a) != EvalKey(b) && UserKey(a) != StatsKey(b) && EvalKey(a) != StatsKey(b)
  {
    assert GuildKey(a)[0] == 'g' && UserKey(a)[0] == 'u' && EvalKey(a)[0] == 'e' && StatsKey(a)[0] == 's';
    assert UserKey(b)[0] == 'u' && EvalKey(b)[0] == 'e' && StatsKey(b)[0] == 's';
  }

  /** `map.get(id) || []` */
  function Collected<T>(m: map<string, seq<T>>, id: string): seq<T> {
    if id in m then m[id] else []
  }

  /** The cluster reports carried by a list of `returnStats` replies. */
  function Payloads(replies: seq<StatsReply>): seq<RawClusterStats> {
    seq(|replies|, k requires 0 <= k < |replies| => replies[k].stats)
  }

  // ---------------------------------------------------------------------------
  // Promise resolution happens at most once per token.

  /** A promise takes only its first resolution: resolving a settled token adds nothing. */
  function Settle(settled: set<nat>, token: nat, value: Reply): seq<(nat, Reply)> {
    if token in settled then [] else [(token, value)]
  }

  predicate DistinctTokens(rs: seq<(nat, Reply)>) {
    forall i, j | 0 <= i < j < |rs| :: rs[i].0 != rs[j].0
  }

  /** The tokens of a resolution log, in order. */
  function Tokens(rs: seq<(nat, Reply)>): seq<nat> {
    seq(|rs|, k requires 0 <= k < |rs| => rs[k].0)
  }

  /** With distinct tokens, every pending request is resolved at most once. */
  lemma {:induction false} ResolvedAtMostOnce(rs: seq<(nat, Reply)>, token: nat)
    requires DistinctTokens(rs)
    ensures Occurrences(Tokens(rs), token) <= 1
  {
    if rs != [] {
      assert Tokens(rs)[1..] == Tokens(rs[1..]);
      ResolvedAtMostOnce(rs[1..], token);
      if rs[0].0 == token {
        OccurrencesAbsent(Tokens(rs[1..]), token);
      }
    }
  }

  // ---------------------------------------------------------------------------

  /** `formatStats`: folds the collected replies, in arrival order, into the fleet-wide total. */
  method FormatStats(replies: seq<StatsReply>) returns (data: Stats)
    ensures data == Aggregate(Payloads(replies))
  {
    data := Zero;
    AggregateOfNothing();
    assert Payloads(replies[..0]) == [];
    var i := 0;
    while i < |replies|
      invariant 0 <= i <= |replies|
      invariant data == Aggregate(Payloads(replies[..i]))
    {
      assert Payloads(replies[..i + 1]) == Payloads(replies[..i]) + [replies[i].stats];
      data := AddCluster(data, replies[i].stats, Payloads(replies[..i]));
      i := i + 1;
    }
    assert replies[..i] == replies;
  }

  class PubSub {
    const client: Client
    const redisPassword: Option<string>

    var resolvers: map<string, nat>  // `returns` in the source
    var evals: map<string, seq<Output>>
    var stats: map<string, seq<StatsReply>>
    var subs: map<string, nat>

    var settled: set<nat>
    var nextToken: nat

    var published: seq<Message>
    var resolutions: seq<(nat, Reply)>
    var dispatched: seq<(nat, Message)>

    /** Every registered resolver and every settled promise was issued, and
        every recorded resolution is of a settled promise, each token at most once. */
    ghost predicate Valid()
      reads this
    {
      && (forall k | k in resolvers :: resolvers[k] < nextToken)
      && (forall t | t in settled :: t < nextToken)
      && (forall i | 0 <= i < |resolutions| :: resolutions[i].0 in settled)
      && DistinctTokens(resolutions)
    }

    constructor (client: Client, redisPassword: Option<string>)
      ensures Valid()
      ensures this.client == client && this.redisPassword == redisPassword
      ensures resolvers == map[] && evals == map[] && stats == map[] && subs == map[]
      ensures settled == {} && nextToken == 0
      ensures published == [] && resolutions == [] && dispatched == []
    {
      this.client := client;
      this.redisPassword := redisPassword;
      resolvers, evals, stats, subs := map[], map[], map[], map[];
      settled, nextToken := {}, 0;
      published, resolutions, dispatched := [], [], [];
    }

    predicate HasPassword() {
      Truthy(redisPassword)
    }

    /** The messages the handler returns from before doing anything, the sub
        dispatch included: lookups reaching a data client, and evaluation
        traffic when no password is configured. */
    predicate Silenced(m: Message) {
      || ((m.GetGuild? || m.GetUser?) && client.DataClient?)
      || ((m.Eval? || m.ReturnEval?) && !HasPassword())
    }

    // -------------------------------------------------------------------------
    // Two-state descriptions of what each channel's branch does.

    twostate predicate Publishes(msgs: seq<Message>)
      reads this
    {
      && published == old(published) + msgs
      && resolvers == old(resolvers) && evals == old(evals) && stats == old(stats)
      && settled == old(settled) && resolutions == old(resolutions)
    }

    twostate predicate Quiet()
      reads this
    {
      Publishes([])
    }

    twostate predicate Answered(key: string, m: Message)
      reads this
    {
      && published == old(published) && evals == old(evals) && stats == old(stats)
      && if key in old(resolvers) then
           && resolvers == old(resolvers) - {key}
           && settled == old(settled) + {old(resolvers)[key]}
           && resolutions == old(resolutions) + Settle(old(settled), old(resolvers)[key], Received(m))
         else
           resolvers == old(resolvers) && settled == old(settled) && resolutions == old(resolutions)
    }

    twostate predicate EvalCollected(id: string, output: Output)
      reads this
    {
      && published == old(published) && stats == old(stats)
      && if EvalKey(id) !in old(resolvers) then
           resolvers == old(resolvers) && evals == old(evals) && settled == old(settled) && resolutions == old(resolutions)
         else
           var token, collected := old(resolvers)[EvalKey(id)], Collected(old(evals), id) + [output];
           if FleetComplete(client, |collected|) then
             && resolvers == old(resolvers) - {EvalKey(id)} && evals == old(evals) - {id}
             && settled == old(settled) + {token}
             && resolutions == old(resolutions) + Settle(old(settled), token, Outputs(collected))
           else
             && resolvers == old(resolvers) && evals == old(evals)[id := collected]
             && settled == old(settled) && resolutions == old(resolutions)
    }

    twostate predicate StatsCollected(reply: StatsReply)
      reads this
    {
      && published == old(published) && evals == old(evals)
      && if StatsKey(reply.id) !in old(resolvers) then
           resolvers == old(resolvers) && stats == old(stats) && settled == old(settled) && resolutions == old(resolutions)
         else
           var token, collected := old(resolvers)[StatsKey(reply.id)], Collected(old(stats), reply.id) + [reply];
           if FleetComplete(client, |collected|) then
             && resolvers == old(resolvers) - {StatsKey(reply.id)} && stats == old(stats) - {reply.id}
             && settled == old(settled) + {token}
             && resolutions == old(resolutions) + Settle(old(settled), token, Aggregated(Aggregate(Payloads(collected))))
           else
             && resolvers == old(resolvers) && stats == old(stats)[reply.id := collected]
             && settled == old(settled) && resolutions == old(resolutions)
    }

    /** The effect of one incoming message on the registry and the publish log. */
    twostate predicate Handled(m: Message, local: Local, evaluated: Output)
      reads this
    {
      if Silenced(m) then Quiet() else
      match m
      case GetGuild(id) =>
        Publishes(if id in local.guilds then [ReturnGuild(id, local.guilds[id])] else [])
      case ReturnGuild(id, _) => Answered(GuildKey(id), m)
      case GetUser(id) =>
        Publishes(if id in local.users then [ReturnUser(id, local.users[id])] else [])
      case ReturnUser(id, _) => Answered(UserKey(id), m)
      case Eval(id, _, _) => Publishes([ReturnEval(id, evaluated)])
      case ReturnEval(id, output) => EvalCollected(id, output)
      case StatsRequest(key, id) =>
        Publishes(if client.GatewayClient? && client.lockKey == key
                  then [ReturnStats(StatsReply(client.lockKey, id, local.snapshot))] else [])
      case ReturnStats(reply) => StatsCollected(reply)
      case Custom(_, _) => Quiet()
    }

    // -------------------------------------------------------------------------
    // Resolution and the incoming-message handler.

    /** Calls the resolver of promise `token` with `value`. */
    method Resolve(token: nat, value: Reply)
      requires Valid() && token < nextToken
      modifies this`settled, this`resolutions
      ensures Valid()
      ensures settled == old(settled) + {token}
      ensures resolutions == old(resolutions) + Settle(old(settled), token, value)
    {
      if token !in settled {
        resolutions := resolutions + [(token, value)];
      }
      settled := settled + {token};
    }

    /** `handleMessage`: runs the branch of the message's channel, then the
        handler registered with `sub` for that channel, if any. */
    method HandleMessage(m: Message, local: Local, evaluated: Output)
      requires Valid() && Decoded(m)
      modifies this
      ensures Valid()
      ensures Handled(m, local, evaluated)
      ensures subs == old(subs) && nextToken == old(nextToken)
      ensures dispatched == old(dispatched) +
        if !Silenced(m) && Channel(m) in subs then [(subs[Channel(m)], m)] else []
    {
      if Silenced(m) {
        return;
      }
      match m {
      case GetGuild(id) =>
        if id in local.guilds {
          published := published + [ReturnGuild(id, local.guilds[id])];
        }
      case ReturnGuild(id, _) =>
        Answer(GuildKey(id), m);
      case GetUser(id) =>
        if id in local.users {
          published := published + [ReturnUser(id, local.users[id])];
        }
      case ReturnUser(id, _) =>
        Answer(UserKey(id), m);
      case Eval(id, _, _) =>
        published := published + [ReturnEval(id, evaluated)];
      case ReturnEval(id, output) =>
        CollectEval(id, output);
      case StatsRequest(key, id) =>
        if client.GatewayClient? && client.lockKey == key {
          published := published + [ReturnStats(StatsReply(client.lockKey, id, local.snapshot))];
        }
      case ReturnStats(reply) =>
        CollectStats(reply);
      case Custom(_, _) =>
      }
      var channel := Channel(m);
      if channel in subs {
        dispatched := dispatched + [(subs[channel], m)];
      }
    }

    /** A `returnGuild`/`returnUser` reply: a registered resolver is called
        with the reply and its entry removed; an unknown key changes nothing. */
    method Answer(key: string, m: Message)
      requires Valid()
      modifies this`resolvers, this`settled, this`resolutions
      ensures Valid()
      ensures Answered(key, m)
    {
      if key in resolvers {
        Resolve(resolvers[key], Received(m));
        resolvers := resolvers - {key};
      }
    }

    /** A `returnEval` reply for a registered request appends its output; once
        the whole fleet has answered, both entries go and the resolver gets
        the outputs in arrival order. */
    method CollectEval(id: string, output: Output)
      requires Valid()
      modifies this`resolvers, this`evals, this`settled, this`resolutions
      ensures Valid()
      ensures EvalCollected(id, output)
    {
      var key := EvalKey(id);
      if key in resolvers {
        var token := resolvers[key];
        var collected := Collected(evals, id) + [output];
        evals := evals[id := collected];
        if FleetComplete(client, |collected|) {
          resolvers := resolvers - {key};
          evals := evals - {id};
          Resolve(token, Outputs(collected));
        }
      }
    }

    /** A `returnStats` reply: as for evaluation, but the resolver gets the
        fleet-wide total of the collected replies. */
    method CollectStats(reply: StatsReply)
      requires Valid()
      modifies this`resolvers, this`stats, this`settled, this`resolutions
      ensures Valid()
      ensures StatsCollected(reply)
    {
      var key := StatsKey(reply.id);
      if key in resolvers {
        var token := resolvers[key];
        var collected := Collected(stats, reply.id) + [reply];
        stats := stats[reply.id := collected];
        if FleetComplete(client, |collected|) {
          resolvers := resolvers - {key};
          stats := stats - {reply.id};
          var data := FormatStats(collected);
          Resolve(token, Aggregated(data));
        }
      }
    }

    // -------------------------------------------------------------------------
    // Requests and their timeouts.

    /** Registers a fresh resolver under `key` and publishes `request`. */
    method Register(key: string, request: Message) returns (token: nat)
      requires Valid()
      modifies this`resolvers, this`nextToken, this`published
      ensures Valid()
      ensures token == old(nextToken) && nextToken == token + 1 && token !in settled
      ensures resolvers == old(resolvers)[key := token]
      ensures published == old(published) + [request]
    {
      token := nextToken;
      nextToken := nextToken + 1;
      resolvers := resolvers[key := token];
      published := published + [request];
    }

    /** `getGuild`: the request side. */
    method GetGuildRequest(id: string) returns (token: nat)
      requires Valid()
      modifies this`resolvers, this`nextToken, this`published
      ensures Valid()
      ensures token == old(nextToken) && nextToken == token + 1 && token !in settled
      ensures resolvers == old(resolvers)[GuildKey(id) := token]
      ensures published == old(published) + [GetGuild(id)]
    {
      token := Register(GuildKey(id), GetGuild(id));
    }

    /** `getUser`: the request side. */
    method GetUserRequest(id: string) returns (token: nat)
      requires Valid()
      modifies this`resolvers, this`nextToken, this`published
      ensures Valid()
      ensures token == old(nextToken) && nextToken == token + 1 && token !in settled
      ensures resolvers == old(resolvers)[UserKey(id) := token]
      ensures published == old(published) + [GetUser(id)]
    {
      token := Register(UserKey(id), GetUser(id));
    }

    /** `evalAll`: `id` stands for the generated correlation id. */
    method EvalAllRequest(script: string, id: string) returns (token: nat)
      requires Valid()
      modifies this`resolvers, this`nextToken, this`published
      ensures Valid()
      ensures token == old(nextToken) && nextToken == token + 1 && token !in settled
      ensures resolvers == old(resolvers)[EvalKey(id) := token]
      ensures published == old(published) + [Eval(id, script, ClientId(client))]
    {
      token := Register(EvalKey(id), Eval(id, script, ClientId(client)));
    }

    /** `getStats`: asks the clusters whose lock key is `key || client.lockKey`. */
    method GetStatsRequest(key: Option<string>, id: string) returns (token: nat)
      requires Valid()
      modifies this`resolvers, this`nextToken, this`published
      ensures Valid()
      ensures token == old(nextToken) && nextToken == token + 1 && token !in settled
      ensures resolvers == old(resolvers)[StatsKey(id) := token]
      ensures published == old(published) + [StatsRequest(OrElse(key, client.lockKey), id)]
    {
      token := Register(StatsKey(id), StatsRequest(OrElse(key, client.lockKey), id));
    }

    /** A first-response or evaluation deadline: removes `key` and resolves
        promise `token` with `undefined` unless it is already resolved. */
    method Expire(key: string, token: nat)
      requires Valid() && token < nextToken
      modifies this`resolvers, this`settled, this`resolutions
      ensures Valid()
      ensures resolvers == old(resolvers) - {key}
      ensures settled == old(settled) + {token}
      ensures resolutions == old(resolutions) + Settle(old(settled), token, NoResult)
    {
      resolvers := resolvers - {key};
      Resolve(token, NoResult);
    }

    /** The `getGuild` deadline deletes the `user_` key of the same id, so the
        guild resolver stays registered after its deadline. */
    method GetGuildTimeout(id: string, token: nat)
      requires Valid() && token < nextToken
      modifies this`resolvers, this`settled, this`resolutions
      ensures Valid()
      ensures resolvers == old(resolvers) - {UserKey(id)}
      ensures GuildKey(id) in old(resolvers) ==> GuildKey(id) in resolvers && resolvers[GuildKey(id)] == old(resolvers)[GuildKey(id)]
      ensures settled == old(settled) + {token}
      ensures resolutions == old(resolutions) + Settle(old(settled), token, NoResult)
    {
      KeysDisjoint(id, id);
      Expire(UserKey(id), token);
    }

    /** The `getUser` deadline deletes its own key. */
    method GetUserTimeout(id: string, token: nat)
      requires Valid() && token < nextToken
      modifies this`resolvers, this`settled, this`resolutions
      ensures Valid()
      ensures resolvers == old(resolvers) - {UserKey(id)} && UserKey(id) !in resolvers
      ensures settled == old(settled) + {token}
      ensures resolutions == old(resolutions) + Settle(old(settled), token, NoResult)
    {
      Expire(UserKey(id), token);
    }

    /** The `evalAll` deadline resolves with `undefined`; the outputs collected
        so far stay in `evals`. */
    method EvalAllTimeout(id: string, token: nat)
      requires Valid() && token < nextToken
      modifies this`resolvers, this`settled, this`resolutions
      ensures Valid()
      ensures resolvers == old(resolvers) - {EvalKey(id)} && evals == old(evals)
      ensures settled == old(settled) + {token}
      ensures resolutions == old(resolutions) + Settle(old(settled), token, NoResult)
    {
      Expire(EvalKey(id), token);
    }

    /** The `getStats` deadline removes both entries and resolves with the total
        of whatever replies arrived (all zeros when none did). */
    method GetStatsTimeout(id: string, token: nat)
      requires Valid() && token < nextToken
      modifies this`resolvers, this`stats, this`settled, this`resolutions
      ensures Valid()
      ensures resolvers == old(resolvers) - {StatsKey(id)} && stats == old(stats) - {id}
      ensures settled == old(settled) + {token}
      ensures resolutions == old(resolutions) +
        Settle(old(settled), token, Aggregated(Aggregate(Payloads(Collected(old(stats), id)))))
    {
      var collected := Collected(stats, id);
      resolvers := resolvers - {StatsKey(id)};
      stats := stats - {id};
      var data := FormatStats(collected);
      Resolve(token, Aggregated(data));
    }

    /** `sub`: registers `handler` for `eventName`, replacing any earlier one. */
    method Sub(eventName: string, handler: nat)
      modifies this`subs
      ensures subs == old(subs)[eventName := handler]
    {
      subs := subs[eventName := handler];
    }

    /** `pub`: publishes an application message on `eventName`. */
    method Pub(eventName: string, message: Json)
      modifies this`published
      ensures published == old(published) + [Custom(eventName, message)]
    {
      published := published + [Custom(eventName, message)];
    }
  }
}
