/** The hazard scheduler one server runs (hazard-scheduler.service.ts), for one game and difficulty. */
module HazardScheduler {
  import opened Common
  import opened RedisStore
  import opened HazardPatterns
  import opened HazardRotation

  /** What the servers share: the Redis entry, the history list and the lease. `timeline` and `sinceFlush` are for the specification. */
  class HazardStore {
    var entry: Option<Entry<HazardState>>
    var leader: Option<Server>
    var history: seq<HazardState>
    ghost var timeline: seq<Installed>
    ghost var sinceFlush: nat

    constructor ()
      ensures entry.None? && leader.None? && history == [] && timeline == [] && sinceFlush == 0
    {
      entry, leader, history := None, None, [];
      timeline, sinceFlush := [], 0;
    }

    method Get(now: int) returns (state: Option<HazardState>)
      ensures state == if entry.Some? && now < entry.value.expiresAt then Some(entry.value.value) else None
    {
      if entry.Some? && now < entry.value.expiresAt {
        return Some(entry.value.value);
      }
      return None;
    }

    method Set(state: HazardState, ttlSeconds: nat, now: int)
      modifies this
      ensures entry == Some(Entry(state, now + ttlSeconds * 1000)) && leader == old(leader) && history == old(history)
      ensures timeline == old(timeline) + [Installed(state, now)] && sinceFlush == old(sinceFlush) + 1
    {
      entry := Some(Entry(state, now + ttlSeconds * 1000));
      timeline, sinceFlush := timeline + [Installed(state, now)], sinceFlush + 1;
    }

    /** LPUSH and LTRIM. */
    method AddToHistory(state: HazardState)
      modifies `history
      ensures history == Prepend(state, old(history))
    {
      history := [state] + history;
      if |history| > HISTORY_LIMIT {
        history := history[..HISTORY_LIMIT];
      }
    }

    method FlushAll()
      modifies this
      ensures entry.None? && leader.None? && history == [] && timeline == old(timeline) && sinceFlush == 0
    {
      entry, leader, history := None, None, [];
      sinceFlush := 0;
    }
  }

  /** What one server sees of a cluster: the shared store, its own copy and its own timer. */
  function SeenBy(c: Cluster, server: Server): Cluster {
    c.(caches := if server in c.caches then map[server := c.caches[server]] else map[],
       timers := if server in c.timers then map[server := c.timers[server]] else map[],
       reading := map[])
  }

  /** Whatever holds of the cluster holds of what each server sees. */
  lemma SeenByKeepsInv(cfg: Config, c: Cluster, server: Server)
    requires Inv(cfg, c)
    ensures Inv(cfg, SeenBy(c, server)) && (FindsNewest(SeenBy(c, server), server) <==> FindsNewest(c, server))
  {}

  lemma InstallSeen(cfg: Config, c: Cluster, server: Server, state: HazardState, lag: nat)
    requires cfg.Valid()
    ensures SeenBy(Install(cfg, c, server, state, lag), server) == Install(cfg, SeenBy(c, server), server, state, lag)
  {}

  /** A read does to what its server sees what it does in the cluster. */
  lemma LoadSeen(cfg: Config, c: Cluster, server: Server, draw: Draw, lag: nat)
    requires cfg.Valid()
    ensures SeenBy(LoadState(cfg, c, server, draw, lag), server) == LoadState(cfg, SeenBy(c, server), server, draw, lag)
  {
    var state := Refreshed(c, server);
    assert Refreshed(SeenBy(c, server), server) == state;
    if state.None? {
      InstallSeen(cfg, c, server, HazardState(draw.current, draw.next, c.now + cfg.refreshMs, cfg.hazardCount), lag);
    } else {
      var cached := c.(caches := c.caches[server := state.value]);
      assert SeenBy(c, server).(caches := SeenBy(c, server).caches[server := state.value]) == SeenBy(cached, server);
      InstallSeen(cfg, cached, server, HazardState(Carried(cached, server, draw), draw.next, c.now + cfg.refreshMs, cfg.hazardCount), lag);
    }
  }

  class Scheduler {
    const cfg: Config
    const serverId: Server
    const redis: HazardStore
    var state: Option<HazardState>
    var timer: Option<int>

    constructor (cfg: Config, serverId: Server, redis: HazardStore)
      ensures this.cfg == cfg && this.serverId == serverId && this.redis == redis && state.None? && timer.None?
    {
      this.cfg, this.serverId, this.redis := cfg, serverId, redis;
      state, timer := None, None;
    }

    /** The cluster as this server sees it: the shared store, its own copy and its own timer. */
    ghost function View(now: int): Cluster
      reads this, redis
    {
      Cluster(now, redis.entry, redis.leader,
              if state.Some? then map[serverId := state.value] else map[],
              if timer.Some? then map[serverId := timer.value] else map[],
              redis.history, map[], redis.timeline, redis.sinceFlush)
    }

    method IsLeader() returns (leads: bool)
      ensures leads == (redis.leader == Some(serverId))
    {
      leads := redis.leader == Some(serverId);
    }

    /** setTimeout at `now + lag`, which replaces the pending timer; only the leader sets one. */
    method ScheduleRotation(now: int, lag: nat)
      modifies `timer
      ensures timer == if redis.leader == Some(serverId) then Some(now + cfg.refreshMs + lag) else old(timer)
    {
      var leads := IsLeader();
      if !leads {
        return;
      }
      timer := Some(now + cfg.refreshMs + lag);
    }

    /** Behind the leader check: on the leader a rotation, elsewhere nothing. */
    method RotateGameDifficulty(now: int, draw: Draw, lag: nat)
      requires cfg.Valid()
      modifies this, redis
      ensures View(now) == if old(redis.leader) == Some(serverId) then Rotate(cfg, old(View(now)), serverId, draw, lag) else old(View(now))
      ensures old(redis.leader) == Some(serverId) ==> state.Some?
    {
      var leads := IsLeader();
      if !leads {
        return;
      }
      var changeAt := now + cfg.refreshMs;
      var prevState := redis.Get(now);
      if prevState.None? {
        prevState := state;
      }
      var current := if prevState.Some? then prevState.value.next else draw.current;
      var rotated := HazardState(current, draw.next, changeAt, cfg.hazardCount);
      state := Some(rotated);
      redis.Set(rotated, cfg.TtlSeconds(), now);
      redis.AddToHistory(rotated);
      ScheduleRotation(now, lag);
    }

    method InitializeGameDifficulty(now: int, draw: Draw, lag: nat)
      requires cfg.Valid()
      modifies this, redis
      ensures View(now) == Initialise(cfg, old(View(now)), serverId, draw, lag)
      ensures state.Some?
    {
      var initial := HazardState(draw.current, draw.next, now + cfg.refreshMs, cfg.hazardCount);
      state := Some(initial);
      redis.Set(initial, cfg.TtlSeconds(), now);
      redis.AddToHistory(initial);
      ScheduleRotation(now, lag);
    }

    method GetCurrentState(now: int, draw: Draw, lag: nat) returns (result: HazardState)
      requires cfg.Valid()
      modifies this, redis
      ensures View(now) == LoadState(cfg, old(View(now)), serverId, draw, lag)
      ensures state == Some(result)
    {
      var found := state;
      if found.None? || now >= found.value.changeAt {
        var redisState := redis.Get(now);
        if redisState.Some? {
          found := redisState;
          state := found;
        }
      }
      // a follower looks at Redis once more here; in the same instant it finds what it found above
      if found.Some? && now >= found.value.changeAt {
        var leads := IsLeader();
        if leads {
          RotateGameDifficulty(now, draw, lag);
          found := state;
        }
      }
      if found.None? {
        InitializeGameDifficulty(now, draw, lag);
        found := state;
      }
      return found.value;
    }

    /** The handler of a rotation notification: forget the copy. */
    method OnRotationNotification(now: int)
      requires cfg.Valid()
      modifies `state
      ensures View(now) == Next(cfg, old(View(now)), Invalidate(serverId))
    {
      state := None;
    }

    /** From the newest state, in Redis or in memory, the columns returned are the pattern in force. */
    method GetActiveHazards(now: int, draw: Draw, lag: nat) returns (columns: seq<int>)
      requires cfg.Valid()
      modifies this, redis
      ensures View(now) == LoadState(cfg, old(View(now)), serverId, draw, lag)
      ensures state.Some? && columns == ActivePattern(state.value, now)
      ensures Inv(cfg, old(View(now))) && DrawValid(cfg, draw) && FindsNewest(old(View(now)), serverId) ==>
                && Inv(cfg, View(now)) && state == Some(Newest(View(now)))
                && columns == ActiveAt(redis.timeline, now) == ActiveAt(old(redis.timeline), now)
    {
      ghost var before := View(now);
      var current := GetCurrentState(now, draw, lag);
      columns := ActivePattern(current, now);
      if Inv(cfg, before) && DrawValid(cfg, draw) && FindsNewest(before, serverId) {
        LoadYieldsNewest(cfg, before, serverId, draw, lag);
        NewestTellsActive(cfg, View(now));
        ReadIsCoherent(cfg, before, 0, serverId, draw, lag);
      }
    }
  }
}
