/**
 * Hazard rotation across servers (hazard-scheduler.service.ts), for one game and difficulty: the entry in Redis with
 * its time to live, a cached copy and a timer per server, invalidations that may be late or lost, a leader that may lose
 * its lease, reads that refresh and, on the leader, rotate, and the flush of Redis that follows any disconnect.
 * Initialisation is one step; the clock is shared.
 */
module HazardRotation {
  import opened Common
  import opened RedisStore
  import opened HazardPatterns

  const HISTORY_LIMIT := 20

  type Server = nat

  type ReadId = nat

  datatype Config = Config(refreshMs: int, hazardCount: int, totalColumns: int) {
    predicate Valid() {
      refreshMs > 0
    }

    /** ceil(refreshMs * 1.5 / 1000), in seconds. */
    function TtlSeconds(): nat
      requires Valid()
    {
      (3 * refreshMs + 1999) / 2000
    }
  }

  /** A state together with the time at which it was installed. */
  datatype Installed = Installed(state: HazardState, at: int)

  /** A read under way: the state getCurrentState has returned, and when. */
  datatype Reading = Reading(state: HazardState, loadedAt: int)

  /**
   * `leader` is the holder of the lease in Redis. `timeline` lists every state ever installed, oldest first, and
   * `sinceFlush` counts those installed since Redis was last flushed; no operation reads the two.
   */
  datatype Cluster = Cluster(
    now: int,
    entry: Option<Entry<HazardState>>,
    leader: Option<Server>,
    caches: map<Server, HazardState>,
    timers: map<Server, int>,
    history: seq<HazardState>,
    reading: map<ReadId, Reading>,
    timeline: seq<Installed>,
    sinceFlush: nat)

  /** The patterns the random source has ready, for the two places a state may need. */
  datatype Draw = Draw(current: seq<int>, next: seq<int>)

  datatype Event =
    | Tick(ms: nat)
    | TimerFires(server: Server, draw: Draw, lag: nat)
    | Load(id: ReadId, server: Server, draw: Draw, lag: nat)
    | Evaluate(id: ReadId)
    | Invalidate(server: Server)
    | LeaseEnds
    | StartUp(server: Server)
    | Flush

  predicate EntryLive(c: Cluster) {
    c.entry.Some? && c.now < c.entry.value.expiresAt
  }

  predicate Leads(c: Cluster, server: Server) {
    c.leader == Some(server)
  }

  function Prepend(state: HazardState, history: seq<HazardState>): seq<HazardState> {
    [state] + if |history| < HISTORY_LIMIT then history else history[..HISTORY_LIMIT - 1]
  }

  /** Stores a new state in the server's memory, in Redis with its time to live, and in the history; the leader sets its timer. */
  function Install(cfg: Config, c: Cluster, server: Server, state: HazardState, lag: nat): Cluster
    requires cfg.Valid()
  {
    c.(entry := Some(Entry(state, c.now + cfg.TtlSeconds() * 1000)),
       caches := c.caches[server := state],
       timers := if Leads(c, server) then c.timers[server := c.now + cfg.refreshMs + lag] else c.timers,
       history := Prepend(state, c.history),
       timeline := c.timeline + [Installed(state, c.now)],
       sinceFlush := c.sinceFlush + 1)
  }

  /** The state a rotation starts from: Redis first, then the server's own copy. */
  function Previous(c: Cluster, server: Server): Option<HazardState> {
    if EntryLive(c) then Some(c.entry.value.value)
    else if server in c.caches then Some(c.caches[server])
    else None
  }

  /** The pattern a rotation carries on: the announced one of that state, a drawn one if there is none. */
  function Carried(c: Cluster, server: Server, draw: Draw): seq<int> {
    if Previous(c, server).Some? then Previous(c, server).value.next else draw.current
  }

  /** rotateGameDifficulty behind its leader check: `next` becomes `current`, a newly drawn pattern becomes `next`. */
  function Rotate(cfg: Config, c: Cluster, server: Server, draw: Draw, lag: nat): Cluster
    requires cfg.Valid()
  {
    Install(cfg, c, server, HazardState(Carried(c, server, draw), draw.next, c.now + cfg.refreshMs, cfg.hazardCount), lag)
  }

  /** Nothing in memory and nothing in Redis: a first state is drawn. */
  function Initialise(cfg: Config, c: Cluster, server: Server, draw: Draw, lag: nat): Cluster
    requires cfg.Valid()
  {
    Install(cfg, c, server, HazardState(draw.current, draw.next, c.now + cfg.refreshMs, cfg.hazardCount), lag)
  }

  /** The state a read starts from: the copy in memory while it is fresh, else Redis, else the stale copy. */
  function Refreshed(c: Cluster, server: Server): Option<HazardState> {
    if server in c.caches && c.now < c.caches[server].changeAt then Some(c.caches[server])
    else if EntryLive(c) then Some(c.entry.value.value)
    else if server in c.caches then Some(c.caches[server])
    else None
  }

  /** getCurrentState: refresh; rotate when the state is past its change time and this server leads; initialise when there is none. */
  function LoadState(cfg: Config, c: Cluster, server: Server, draw: Draw, lag: nat): Cluster
    requires cfg.Valid()
  {
    var state := Refreshed(c, server);
    if state.None? then Initialise(cfg, c, server, draw, lag)
    else
      var cached := c.(caches := c.caches[server := state.value]);
      if c.now >= state.value.changeAt && Leads(c, server) then Rotate(cfg, cached, server, draw, lag) else cached
  }

  predicate TimerIsDue(c: Cluster, server: Server) {
    server in c.timers && c.now >= c.timers[server]
  }

  function Next(cfg: Config, c: Cluster, e: Event): Cluster
    requires cfg.Valid()
  {
    match e
    case Tick(ms) => c.(now := c.now + ms)
    case TimerFires(server, draw, lag) =>
      if !TimerIsDue(c, server) then c
      else
        var fired := c.(timers := c.timers - {server});
        if Leads(c, server) then Rotate(cfg, fired, server, draw, lag) else fired
    case Load(id, server, draw, lag) =>
      var loaded := LoadState(cfg, c, server, draw, lag);
      loaded.(reading := loaded.reading[id := Reading(loaded.caches[server], c.now)])
    case Evaluate(id) => c.(reading := c.reading - {id})
    case Invalidate(server) => c.(caches := c.caches - {server})
    case LeaseEnds => c.(leader := None)
    case StartUp(server) =>
      // a new process: no copy, no timer; it leads if nobody holds the lease
      c.(caches := c.caches - {server}, timers := c.timers - {server}, leader := if c.leader.None? then Some(server) else c.leader)
    case Flush => c.(entry := None, leader := None, history := [], sinceFlush := 0)
  }

  function Run(cfg: Config, c: Cluster, es: seq<Event>): Cluster
    requires cfg.Valid()
    decreases |es|
  {
    if es == [] then c else Run(cfg, Next(cfg, c, es[0]), es[1..])
  }

  /** The leader's first state, drawn at time `now`. */
  function Start(cfg: Config, leader: Server, draw: Draw, now: int, lag: nat): Cluster
    requires cfg.Valid()
  {
    Initialise(cfg, Cluster(now, None, Some(leader), map[], map[], [], map[], [], 0), leader, draw, lag)
  }

  // ---------------------------------------------------------------- what was active when

  /** The pattern in force at time t: that of the newest state installed by then. */
  function ActiveAt(timeline: seq<Installed>, t: int): seq<int>
    requires timeline != []
  {
    var last := timeline[|timeline| - 1];
    if |timeline| == 1 || last.at <= t then ActivePattern(last.state, t)
    else ActiveAt(timeline[..|timeline| - 1], t)
  }

  /** Consecutive states hand over: no state is replaced before its change time, and its next pattern is carried on. */
  ghost predicate HandsOver(cfg: Config, timeline: seq<Installed>) {
    && (forall i :: 0 <= i < |timeline| ==> timeline[i].state.changeAt == timeline[i].at + cfg.refreshMs)
    && (forall i, j :: 0 <= i < |timeline| && j == i + 1 && j < |timeline| ==>
          timeline[i].state.changeAt <= timeline[j].at && timeline[j].state.current == timeline[i].state.next)
  }

  lemma {:induction false} InstalledInOrder(cfg: Config, timeline: seq<Installed>, i: nat, j: nat)
    requires cfg.Valid() && HandsOver(cfg, timeline) && i < j < |timeline|
    ensures timeline[i].state.changeAt <= timeline[j].at
    decreases j
  {
    if i < j - 1 {
      InstalledInOrder(cfg, timeline, i, j - 1);
      assert timeline[j - 1].state.changeAt <= timeline[j].at;
    }
  }

  /** From the installation of state i to the change time of the one after it, state i tells what is in force. */
  lemma {:induction false} StateTellsActive(cfg: Config, timeline: seq<Installed>, i: nat, t: int)
    requires cfg.Valid() && HandsOver(cfg, timeline) && i < |timeline|
    requires timeline[i].at <= t
    requires i + 1 < |timeline| ==> t < timeline[i + 1].state.changeAt
    ensures ActiveAt(timeline, t) == ActivePattern(timeline[i].state, t)
    decreases |timeline|
  {
    var n := |timeline| - 1;
    if i + 1 < |timeline| {
      assert timeline[i].state.changeAt <= timeline[i + 1].at && timeline[i + 1].state.current == timeline[i].state.next;
    }
    if i < n && (i + 1 < n || t < timeline[n].at) {
      if i + 1 < n {
        InstalledInOrder(cfg, timeline, i + 1, n);
      }
      assert HandsOver(cfg, timeline[..n]);
      StateTellsActive(cfg, timeline[..n], i, t);
    }
  }

  // ---------------------------------------------------------------- the invariant

  /** The newest state ever installed. */
  function Newest(c: Cluster): HazardState
    requires c.timeline != []
  {
    c.timeline[|c.timeline| - 1].state
  }

  /** Redis holds the newest state, with the time to live of its installation, unless a flush came after that. */
  ghost predicate EntryTracks(cfg: Config, c: Cluster)
    requires cfg.Valid()
  {
    && c.timeline != []
    && (var last := c.timeline[|c.timeline| - 1];
        && last.at <= c.now && last.state.changeAt == last.at + cfg.refreshMs
        && c.entry == if c.sinceFlush > 0 then Some(Entry(last.state, last.at + cfg.TtlSeconds() * 1000)) else None)
  }

  /** A copy that has not passed its change time is the newest state. */
  ghost predicate CopiesCurrent(c: Cluster)
    requires c.timeline != []
  {
    forall s :: s in c.caches && c.now < c.caches[s].changeAt ==> c.caches[s] == Newest(c)
  }

  /** The leader's timer does not fire before the newest state's change time. */
  ghost predicate TimerWaits(c: Cluster)
    requires c.timeline != []
  {
    c.leader.Some? && c.leader.value in c.timers ==> Newest(c).changeAt <= c.timers[c.leader.value]
  }

  /** A reading holds the state that was the newest when it was loaded. */
  ghost predicate LoadedNewest(timeline: seq<Installed>, r: Reading, i: int) {
    && 0 <= i < |timeline| && timeline[i].state == r.state && timeline[i].at <= r.loadedAt
    && (i + 1 < |timeline| ==> r.loadedAt <= timeline[i + 1].at)
  }

  /** Every reading under way was loaded by now, as the newest state at its load. */
  ghost predicate ReadingsLoaded(c: Cluster) {
    forall r :: r in c.reading ==> c.reading[r].loadedAt <= c.now && exists i :: LoadedNewest(c.timeline, c.reading[r], i)
  }

  /** The history holds the states installed since the last flush, newest first, at most 20 of them. */
  ghost predicate HistoryIsNewest(history: seq<HazardState>, timeline: seq<Installed>, sinceFlush: nat) {
    && |history| == Min(HISTORY_LIMIT, sinceFlush) && sinceFlush <= |timeline|
    && forall i :: 0 <= i < |history| ==> history[i] == timeline[|timeline| - 1 - i].state
  }

  ghost predicate StateValid(cfg: Config, state: HazardState) {
    ValidPattern(state.current, cfg.hazardCount, cfg.totalColumns) && ValidPattern(state.next, cfg.hazardCount, cfg.totalColumns)
  }

  ghost predicate DrawValid(cfg: Config, draw: Draw) {
    ValidPattern(draw.current, cfg.hazardCount, cfg.totalColumns) && ValidPattern(draw.next, cfg.hazardCount, cfg.totalColumns)
  }

  ghost predicate EventDrawValid(cfg: Config, e: Event) {
    e.TimerFires? || e.Load? ==> DrawValid(cfg, e.draw)
  }

  /** Every pattern in a copy or in an installed state is a valid one. */
  ghost predicate PatternsValid(cfg: Config, c: Cluster) {
    && (forall s :: s in c.caches ==> StateValid(cfg, c.caches[s]))
    && (forall i :: 0 <= i < |c.timeline| ==> StateValid(cfg, c.timeline[i].state))
  }

  ghost predicate Inv(cfg: Config, c: Cluster) {
    && cfg.Valid() && EntryTracks(cfg, c) && HandsOver(cfg, c.timeline)
    && CopiesCurrent(c) && TimerWaits(c) && PatternsValid(cfg, c)
    && ReadingsLoaded(c)
    && HistoryIsNewest(c.history, c.timeline, c.sinceFlush)
  }

  /** A refresh on this server finds the newest state: in Redis, or in its own copy. */
  ghost predicate FindsNewest(c: Cluster, server: Server)
    requires c.timeline != []
  {
    EntryLive(c) || (server in c.caches && c.caches[server] == Newest(c))
  }

  /** What has to be there when a state is needed: the newest state in Redis or in the server's copy; drawn patterns are valid. */
  ghost predicate Allowed(cfg: Config, c: Cluster, e: Event)
    requires c.timeline != []
  {
    && EventDrawValid(cfg, e)
    && (e.Load? ==> FindsNewest(c, e.server))
    && (e.TimerFires? && TimerIsDue(c, e.server) && Leads(c, e.server) ==> FindsNewest(c, e.server))
  }

  ghost predicate AllowedRun(cfg: Config, c: Cluster, es: seq<Event>)
    requires cfg.Valid()
    decreases |es|
  {
    es == [] || (c.timeline != [] && Allowed(cfg, c, es[0]) && AllowedRun(cfg, Next(cfg, c, es[0]), es[1..]))
  }

  lemma StartSatisfiesInv(cfg: Config, leader: Server, draw: Draw, now: int, lag: nat)
    requires cfg.Valid() && DrawValid(cfg, draw)
    ensures Inv(cfg, Start(cfg, leader, draw, now, lag))
  {}

  /** A refresh yields the newest state exactly when it is in Redis or in the server's own copy. */
  lemma RefreshYieldsNewestIff(cfg: Config, c: Cluster, server: Server)
    requires Inv(cfg, c)
    ensures Refreshed(c, server) == Some(Newest(c)) <==> FindsNewest(c, server)
  {}

  lemma HistoryStaysNewest(history: seq<HazardState>, timeline: seq<Installed>, sinceFlush: nat, state: HazardState, at: int)
    requires HistoryIsNewest(history, timeline, sinceFlush)
    ensures HistoryIsNewest(Prepend(state, history), timeline + [Installed(state, at)], sinceFlush + 1)
  {}

  /** A state appended at or after the change time of the last one, and taking over its announced pattern, is handed over to; no other is. */
  lemma HandsOverSnoc(cfg: Config, timeline: seq<Installed>, state: HazardState, at: int)
    requires timeline != [] && HandsOver(cfg, timeline) && state.changeAt == at + cfg.refreshMs
    ensures var last := timeline[|timeline| - 1].state;
            HandsOver(cfg, timeline + [Installed(state, at)]) <==> at >= last.changeAt && state.current == last.next
  {
    var longer, n := timeline + [Installed(state, at)], |timeline|;
    assert longer[n - 1] == timeline[n - 1] && longer[n] == Installed(state, at);
    assert forall i :: 0 <= i < n ==> longer[i] == timeline[i];
  }

  lemma StillLoadedNewest(timeline: seq<Installed>, more: Installed, r: Reading)
    requires r.loadedAt <= more.at && exists i :: LoadedNewest(timeline, r, i)
    ensures exists i :: LoadedNewest(timeline + [more], r, i)
  {
    var i :| LoadedNewest(timeline, r, i);
    assert LoadedNewest(timeline + [more], r, i);
  }

  lemma InstallKeepsReadings(c: Cluster, c': Cluster, more: Installed)
    requires ReadingsLoaded(c) && c'.reading == c.reading && c'.now == c.now && c'.timeline == c.timeline + [more] && more.at == c.now
    ensures ReadingsLoaded(c')
  {
    forall r | r in c'.reading ensures exists i :: LoadedNewest(c'.timeline, c'.reading[r], i) {
      StillLoadedNewest(c.timeline, more, c.reading[r]);
    }
  }

  lemma InstallKeepsPatterns(cfg: Config, c: Cluster, server: Server, state: HazardState, lag: nat)
    requires cfg.Valid() && PatternsValid(cfg, c) && StateValid(cfg, state)
    ensures PatternsValid(cfg, Install(cfg, c, server, state, lag))
  {}

  lemma InstallKeepsCopies(cfg: Config, c: Cluster, server: Server, state: HazardState, lag: nat)
    requires cfg.Valid() && c.timeline != [] && CopiesCurrent(c) && c.now >= Newest(c).changeAt
    ensures CopiesCurrent(Install(cfg, c, server, state, lag))
  {}

  /** Installing the successor of the newest state at or after its change time keeps the invariant. */
  lemma InstallKeepsInv(cfg: Config, c: Cluster, server: Server, state: HazardState, lag: nat)
    requires Inv(cfg, c) && c.now >= Newest(c).changeAt
    requires state.current == Newest(c).next && state.changeAt == c.now + cfg.refreshMs && StateValid(cfg, state)
    ensures Leads(c, server) ==> Inv(cfg, Install(cfg, c, server, state, lag))
  {
    HandsOverSnoc(cfg, c.timeline, state, c.now);
    HistoryStaysNewest(c.history, c.timeline, c.sinceFlush, state, c.now);
    InstallKeepsReadings(c, Install(cfg, c, server, state, lag), Installed(state, c.now));
    InstallKeepsPatterns(cfg, c, server, state, lag);
    InstallKeepsCopies(cfg, c, server, state, lag);
  }

  lemma CarriesAnnounced(cfg: Config, c: Cluster, server: Server, draw: Draw)
    requires Inv(cfg, c) && FindsNewest(c, server) && DrawValid(cfg, draw)
    ensures Carried(c, server, draw) == Newest(c).next
    ensures StateValid(cfg, HazardState(Newest(c).next, draw.next, c.now + cfg.refreshMs, cfg.hazardCount))
  {
    assert StateValid(cfg, c.timeline[|c.timeline| - 1].state);
  }

  /** The leader's rotation from the newest state, in Redis or in its copy, keeps the invariant. */
  lemma RotateKeepsInv(cfg: Config, c: Cluster, server: Server, draw: Draw, lag: nat)
    requires Inv(cfg, c) && FindsNewest(c, server) && Leads(c, server) && c.now >= Newest(c).changeAt && DrawValid(cfg, draw)
    ensures Inv(cfg, Rotate(cfg, c, server, draw, lag))
  {
    CarriesAnnounced(cfg, c, server, draw);
    InstallKeepsInv(cfg, c, server, HazardState(Newest(c).next, draw.next, c.now + cfg.refreshMs, cfg.hazardCount), lag);
  }

  lemma CacheNewestKeepsInv(cfg: Config, c: Cluster, server: Server)
    requires Inv(cfg, c)
    ensures Inv(cfg, c.(caches := c.caches[server := Newest(c)]))
  {
    assert StateValid(cfg, c.timeline[|c.timeline| - 1].state);
  }

  /** A read that finds the newest state ends up with it, or with the one it has itself installed after it. */
  lemma LoadYieldsNewest(cfg: Config, c: Cluster, server: Server, draw: Draw, lag: nat)
    requires Inv(cfg, c) && FindsNewest(c, server) && DrawValid(cfg, draw)
    ensures var c' := LoadState(cfg, c, server, draw, lag);
            Inv(cfg, c') && server in c'.caches && c'.caches[server] == Newest(c') && c'.now == c.now
  {
    RefreshYieldsNewestIff(cfg, c, server);
    CacheNewestKeepsInv(cfg, c, server);
    var cached := c.(caches := c.caches[server := Newest(c)]);
    if c.now >= Newest(c).changeAt && Leads(c, server) {
      RotateKeepsInv(cfg, cached, server, draw, lag);
    }
  }

  lemma AddReadingKeepsInv(cfg: Config, c: Cluster, id: ReadId)
    requires Inv(cfg, c)
    ensures Inv(cfg, c.(reading := c.reading[id := Reading(Newest(c), c.now)]))
  {
    var c' := c.(reading := c.reading[id := Reading(Newest(c), c.now)]);
    assert LoadedNewest(c'.timeline, c'.reading[id], |c.timeline| - 1);
  }

  lemma TimerKeepsInv(cfg: Config, c: Cluster, e: Event)
    requires Inv(cfg, c) && e.TimerFires? && Allowed(cfg, c, e)
    ensures Inv(cfg, Next(cfg, c, e))
  {
    if TimerIsDue(c, e.server) {
      var fired := c.(timers := c.timers - {e.server});
      assert Inv(cfg, fired);
      if Leads(c, e.server) {
        RotateKeepsInv(cfg, fired, e.server, e.draw, e.lag);
      }
    }
  }

  lemma TickKeepsInv(cfg: Config, c: Cluster, ms: nat)
    requires Inv(cfg, c)
    ensures Inv(cfg, Next(cfg, c, Tick(ms)))
  {}

  lemma FewerReadings(c: Cluster, id: ReadId)
    requires ReadingsLoaded(c)
    ensures ReadingsLoaded(c.(reading := c.reading - {id}))
  {}

  lemma EvaluateKeepsInv(cfg: Config, c: Cluster, id: ReadId)
    requires Inv(cfg, c)
    ensures Inv(cfg, Next(cfg, c, Evaluate(id)))
  {
    FewerReadings(c, id);
  }

  lemma FlushKeepsInv(cfg: Config, c: Cluster)
    requires Inv(cfg, c)
    ensures Inv(cfg, Next(cfg, c, Flush))
  {}

  lemma ForgettingKeepsInv(cfg: Config, c: Cluster, e: Event)
    requires Inv(cfg, c) && (e.Invalidate? || e.LeaseEnds? || e.StartUp?)
    ensures Inv(cfg, Next(cfg, c, e))
  {}

  lemma NextKeepsInv(cfg: Config, c: Cluster, e: Event)
    requires Inv(cfg, c) && Allowed(cfg, c, e)
    ensures Inv(cfg, Next(cfg, c, e))
  {
    match e
    case Tick(ms) => TickKeepsInv(cfg, c, ms);
    case TimerFires(_, _, _) => TimerKeepsInv(cfg, c, e);
    case Load(id, server, draw, lag) =>
      LoadYieldsNewest(cfg, c, server, draw, lag);
      AddReadingKeepsInv(cfg, LoadState(cfg, c, server, draw, lag), id);
    case Evaluate(id) => EvaluateKeepsInv(cfg, c, id);
    case Flush => FlushKeepsInv(cfg, c);
    case _ => ForgettingKeepsInv(cfg, c, e);
  }

  /** Every state of a run hands over properly, whoever rotates and whenever Redis is flushed; see Inv for what that comprises. */
  lemma {:induction false} RunKeepsInv(cfg: Config, c: Cluster, es: seq<Event>)
    requires Inv(cfg, c) && AllowedRun(cfg, c, es)
    ensures Inv(cfg, Run(cfg, c, es))
    decreases |es|
  {
    if es != [] {
      NextKeepsInv(cfg, c, es[0]);
      RunKeepsInv(cfg, Next(cfg, c, es[0]), es[1..]);
    }
  }

  // ---------------------------------------------------------------- coherence

  /** The newest state tells what is in force now. */
  lemma NewestTellsActive(cfg: Config, c: Cluster)
    requires Inv(cfg, c)
    ensures ActivePattern(Newest(c), c.now) == ActiveAt(c.timeline, c.now)
  {
    StateTellsActive(cfg, c.timeline, |c.timeline| - 1, c.now);
  }

  /** What a server without the Redis entry has to go by: its copy, or a new draw. */
  function OwnPattern(c: Cluster, server: Server, draw: Draw): seq<int> {
    if server in c.caches then ActivePattern(c.caches[server], c.now) else draw.current
  }

  /** The pattern getActiveHazards returns in one instant, on any server, whether or not the entry is there. */
  lemma ReadReturns(cfg: Config, c: Cluster, id: ReadId, server: Server, draw: Draw, lag: nat)
    requires Inv(cfg, c)
    ensures var c' := Next(cfg, c, Load(id, server, draw, lag));
            && id in c'.reading && c'.now == c.now
            && ActivePattern(c'.reading[id].state, c.now) == if EntryLive(c) then ActiveAt(c.timeline, c.now) else OwnPattern(c, server, draw)
  {
    NewestTellsActive(cfg, c);
    if EntryLive(c) {
      RefreshYieldsNewestIff(cfg, c, server);
    }
  }

  /** A read is coherent exactly when the entry is in Redis, or what the server has to go by is what is in force. */
  lemma ReadIsCoherentIff(cfg: Config, c: Cluster, id: ReadId, server: Server, draw: Draw, lag: nat)
    requires Inv(cfg, c)
    ensures var c' := Next(cfg, c, Load(id, server, draw, lag));
            && id in c'.reading
            && (ActivePattern(c'.reading[id].state, c.now) == ActiveAt(c.timeline, c.now) <==>
                EntryLive(c) || OwnPattern(c, server, draw) == ActiveAt(c.timeline, c.now))
  {
    ReadReturns(cfg, c, id, server, draw, lag);
  }

  /** A read that finds the newest state returns the pattern in force, and a rotation it sets off changes nothing at that instant. */
  lemma ReadIsCoherent(cfg: Config, c: Cluster, id: ReadId, server: Server, draw: Draw, lag: nat)
    requires Inv(cfg, c) && Allowed(cfg, c, Load(id, server, draw, lag))
    ensures var c' := Next(cfg, c, Load(id, server, draw, lag));
            && id in c'.reading && c'.timeline != [] && c'.now == c.now
            && ActivePattern(c'.reading[id].state, c.now) == ActiveAt(c.timeline, c.now) == ActiveAt(c'.timeline, c.now)
  {
    var c' := Next(cfg, c, Load(id, server, draw, lag));
    ReadIsCoherentIff(cfg, c, id, server, draw, lag);
    LoadYieldsNewest(cfg, c, server, draw, lag);
    NextKeepsInv(cfg, c, Load(id, server, draw, lag));
    NewestTellsActive(cfg, c);
    NewestTellsActive(cfg, c');
  }

  /** However long a read takes, it returns a pattern that was in force at some instant between its load and its end. */
  lemma ReadIsLinearizable(cfg: Config, c: Cluster, id: ReadId) returns (t: int)
    requires Inv(cfg, c) && id in c.reading
    ensures c.reading[id].loadedAt <= t <= c.now
    ensures ActivePattern(c.reading[id].state, c.now) == ActiveAt(c.timeline, t)
  {
    var r := c.reading[id];
    var i :| LoadedNewest(c.timeline, r, i);
    t := if c.now < r.state.changeAt then r.loadedAt else if r.loadedAt < r.state.changeAt then r.state.changeAt else r.loadedAt;
    if i + 1 < |c.timeline| {
      assert c.timeline[i].state.changeAt <= c.timeline[i + 1].at;
      assert c.timeline[i + 1].state.changeAt == c.timeline[i + 1].at + cfg.refreshMs;
    }
    StateTellsActive(cfg, c.timeline, i, t);
  }

  /** The pattern a state announces as next is in force without a break from its change time to the next one's, at least one refresh interval. */
  lemma NextPatternLastsAnInterval(cfg: Config, c: Cluster, i: nat, t: int)
    requires Inv(cfg, c) && i + 1 < |c.timeline|
    requires c.timeline[i].state.changeAt <= t < c.timeline[i + 1].state.changeAt
    ensures c.timeline[i + 1].state.changeAt - c.timeline[i].state.changeAt >= cfg.refreshMs
    ensures ActiveAt(c.timeline, t) == c.timeline[i].state.next
  {
    assert c.timeline[i].state.changeAt <= c.timeline[i + 1].at;
    assert c.timeline[i].state.changeAt == c.timeline[i].at + cfg.refreshMs;
    StateTellsActive(cfg, c.timeline, i, t);
  }

  /**
   * A rotation keeps the hand-over exactly when the newest state is past its change time and the pattern carried on is the
   * announced one. The first is not checked by the rotation itself. The second holds whenever the entry is in Redis; when
   * it is not, it depends on the server's own copy.
   */
  lemma RotationHandsOverIff(cfg: Config, c: Cluster, server: Server, draw: Draw, lag: nat)
    requires Inv(cfg, c)
    ensures HandsOver(cfg, Rotate(cfg, c, server, draw, lag).timeline) <==>
            c.now >= Newest(c).changeAt && (EntryLive(c) || (if server in c.caches then c.caches[server].next else draw.current) == Newest(c).next)
  {
    HandsOverSnoc(cfg, c.timeline, HazardState(Carried(c, server, draw), draw.next, c.now + cfg.refreshMs, cfg.hazardCount), c.now);
  }

  /** A read whose check and rotation are split by the timer's rotation breaks the hand-over exactly when less than an interval lies between. */
  lemma SecondRotationHandsOverIff(cfg: Config, c: Cluster, server: Server, draw: Draw, lag: nat, ms: nat)
    requires Inv(cfg, c) && FindsNewest(c, server) && Leads(c, server) && c.now >= Newest(c).changeAt && DrawValid(cfg, draw)
    ensures var later := Next(cfg, Rotate(cfg, c, server, draw, lag), Tick(ms));
            HandsOver(cfg, Rotate(cfg, later, server, draw, lag).timeline) <==> ms >= cfg.refreshMs
  {
    var first := Rotate(cfg, c, server, draw, lag);
    RotateKeepsInv(cfg, c, server, draw, lag);
    NextKeepsInv(cfg, first, Tick(ms));
    RotationHandsOverIff(cfg, Next(cfg, first, Tick(ms)), server, draw, lag);
  }

  /** Every pattern held anywhere, in memory, in Redis, in a read or in the history, is a valid one. */
  lemma EveryPatternValid(cfg: Config, c: Cluster)
    requires Inv(cfg, c)
    ensures c.entry.Some? ==> StateValid(cfg, c.entry.value.value)
    ensures forall s :: s in c.caches ==> StateValid(cfg, c.caches[s])
    ensures forall i :: 0 <= i < |c.history| ==> StateValid(cfg, c.history[i])
    ensures forall r :: r in c.reading ==> StateValid(cfg, c.reading[r].state)
  {
    assert StateValid(cfg, c.timeline[|c.timeline| - 1].state);
    forall k | 0 <= k < |c.history| ensures StateValid(cfg, c.history[k]) {
      assert c.history[k] == c.timeline[|c.timeline| - 1 - k].state;
    }
    forall r | r in c.reading ensures StateValid(cfg, c.reading[r].state) {
      var i :| LoadedNewest(c.timeline, c.reading[r], i);
    }
  }

  // ---------------------------------------------------------------- when the entry is there

  /** No step needs the invariant for this: Redis tracks the newest state, and only a flush takes it away. */
  lemma NextKeepsEntryTracks(cfg: Config, c: Cluster, e: Event)
    requires cfg.Valid() && EntryTracks(cfg, c)
    ensures EntryTracks(cfg, Next(cfg, c, e))
    ensures if e.Flush? then Next(cfg, c, e).sinceFlush == 0 else Next(cfg, c, e).sinceFlush >= c.sinceFlush
  {}

  /** No more than half a refresh interval has passed since the newest state's change time. */
  predicate InTime(cfg: Config, c: Cluster)
    requires c.timeline != []
  {
    2 * (c.now - Newest(c).changeAt) < cfg.refreshMs
  }

  /** Every state is replaced, or the run is over, within half a refresh interval after its change time. */
  ghost predicate PromptRun(cfg: Config, c: Cluster, es: seq<Event>)
    requires cfg.Valid()
    decreases |es|
  {
    c.timeline != [] && InTime(cfg, c) && (es == [] || PromptRun(cfg, Next(cfg, c, es[0]), es[1..]))
  }

  lemma EntryCoversHalfInterval(cfg: Config, c: Cluster)
    requires cfg.Valid() && EntryTracks(cfg, c) && InTime(cfg, c)
    ensures EntryLive(c) <==> c.sinceFlush > 0
  {}

  /** In every prompt run, reads and rotations of any kind included, the entry is in Redis exactly when no flush came after the last installation. */
  lemma {:induction false} PromptRunEntryIff(cfg: Config, c: Cluster, es: seq<Event>)
    requires cfg.Valid() && EntryTracks(cfg, c) && PromptRun(cfg, c, es)
    ensures EntryTracks(cfg, Run(cfg, c, es))
    ensures EntryLive(Run(cfg, c, es)) <==> Run(cfg, c, es).sinceFlush > 0
    decreases |es|
  {
    EntryCoversHalfInterval(cfg, c);
    if es != [] {
      NextKeepsEntryTracks(cfg, c, es[0]);
      PromptRunEntryIff(cfg, Next(cfg, c, es[0]), es[1..]);
    }
  }

  /** Without a flush the entry is then never missing, and the run is allowed with nothing assumed about Redis. */
  lemma {:induction false} PromptRunNeverMissesEntry(cfg: Config, c: Cluster, es: seq<Event>)
    requires Inv(cfg, c) && c.sinceFlush > 0 && PromptRun(cfg, c, es)
    requires forall i :: 0 <= i < |es| ==> EventDrawValid(cfg, es[i]) && !es[i].Flush?
    ensures AllowedRun(cfg, c, es) && EntryLive(c) && EntryLive(Run(cfg, c, es))
    decreases |es|
  {
    EntryCoversHalfInterval(cfg, c);
    if es != [] {
      assert EventDrawValid(cfg, es[0]) && !es[0].Flush?;
      NextKeepsInv(cfg, c, es[0]);
      NextKeepsEntryTracks(cfg, c, es[0]);
      PromptRunNeverMissesEntry(cfg, Next(cfg, c, es[0]), es[1..]);
    }
  }

  /** The bound is exact for intervals of whole multiples of two seconds: until a flush the entry is there exactly while half an interval has not passed. */
  lemma EntryLastsExactlyHalfInterval(cfg: Config, c: Cluster)
    requires cfg.Valid() && EntryTracks(cfg, c) && cfg.refreshMs % 2000 == 0
    ensures EntryLive(c) <==> c.sinceFlush > 0 && InTime(cfg, c)
  {
    var k := cfg.refreshMs / 2000;
    assert cfg.refreshMs == 2000 * k;
    assert cfg.TtlSeconds() == 3 * k;
  }

  // ---------------------------------------------------------------- after a flush

  /** Where things stand when a state installed after a flush is taken as the first one: the past is forgotten. */
  function Restarted(c: Cluster): Cluster
    requires c.timeline != []
  {
    c.(timeline := [c.timeline[|c.timeline| - 1]], reading := map[])
  }

  lemma InstallForgets(cfg: Config, c: Cluster, past: seq<Installed>, server: Server, state: HazardState, lag: nat)
    requires cfg.Valid()
    ensures Install(cfg, c.(timeline := past), server, state, lag) ==
            Install(cfg, c, server, state, lag).(timeline := past + [Installed(state, c.now)])
  {}

  lemma LoadForgets(cfg: Config, c: Cluster, past: seq<Installed>, server: Server, draw: Draw, lag: nat)
    requires cfg.Valid()
    ensures var forgetful := LoadState(cfg, c.(timeline := past), server, draw, lag);
            forgetful == LoadState(cfg, c, server, draw, lag).(timeline := forgetful.timeline)
  {
    var state := Refreshed(c, server);
    if state.None? {
      InstallForgets(cfg, c, past, server, HazardState(draw.current, draw.next, c.now + cfg.refreshMs, cfg.hazardCount), lag);
    } else if c.now >= state.value.changeAt && Leads(c, server) {
      var cached := c.(caches := c.caches[server := state.value]);
      assert c.(timeline := past).(caches := c.caches[server := state.value]) == cached.(timeline := past);
      InstallForgets(cfg, cached, past, server, HazardState(Carried(cached, server, draw), draw.next, c.now + cfg.refreshMs, cfg.hazardCount), lag);
    }
  }

  /** No operation looks at the past, so the system goes on in the same way when it is forgotten. */
  lemma PastIsNotRead(cfg: Config, c: Cluster, past: seq<Installed>, e: Event)
    requires cfg.Valid()
    ensures var forgetful := Next(cfg, c.(timeline := past), e);
            forgetful == Next(cfg, c, e).(timeline := forgetful.timeline)
  {
    match e
    case TimerFires(server, draw, lag) =>
      var fired := c.(timers := c.timers - {server});
      assert c.(timeline := past).(timers := c.timers - {server}) == fired.(timeline := past);
      InstallForgets(cfg, fired, past, server, HazardState(Carried(fired, server, draw), draw.next, c.now + cfg.refreshMs, cfg.hazardCount), lag);
    case Load(id, server, draw, lag) => LoadForgets(cfg, c, past, server, draw, lag);
    case _ =>
  }

  /** At the flush, no copy is fresh for longer than one refresh interval. */
  lemma CopiesExpireWithinAnInterval(cfg: Config, c: Cluster)
    requires Inv(cfg, c)
    ensures forall s :: s in c.caches ==> c.caches[s].changeAt <= c.now + cfg.refreshMs
  {}

  /** Redis is flushed, a server that has no copy reads and so installs a first state, and `ms` milliseconds pass. */
  function FlushedAndRestarted(cfg: Config, c: Cluster, id: ReadId, server: Server, draw: Draw, lag: nat, ms: nat): Cluster
    requires cfg.Valid()
  {
    Next(cfg, Next(cfg, Next(cfg, c, Flush), Load(id, server, draw, lag)), Tick(ms))
  }

  lemma FlushedAndRestartedIs(cfg: Config, c: Cluster, id: ReadId, server: Server, draw: Draw, lag: nat, ms: nat)
    requires cfg.Valid() && c.timeline != [] && server !in c.caches
    ensures var state := HazardState(draw.current, draw.next, c.now + cfg.refreshMs, cfg.hazardCount);
            FlushedAndRestarted(cfg, c, id, server, draw, lag, ms) ==
            c.(now := c.now + ms, entry := Some(Entry(state, c.now + cfg.TtlSeconds() * 1000)), leader := None,
               caches := c.caches[server := state], history := [state], reading := c.reading[id := Reading(state, c.now)],
               timeline := c.timeline + [Installed(state, c.now)], sinceFlush := 1)
  {}

  /** One state installed since the flush, no leader, no reading: the invariant is a matter of the copies. */
  lemma RestartedInvIff(cfg: Config, c: Cluster)
    requires cfg.Valid() && EntryTracks(cfg, c) && PatternsValid(cfg, c)
    requires |c.timeline| == 1 && c.sinceFlush == 1 && c.history == [Newest(c)] && c.leader.None? && c.reading == map[]
    ensures Inv(cfg, c) <==> CopiesCurrent(c)
  {}

  /**
   * After a flush a server without a copy starts over. All that has been proved holds again from there, for the states
   * from the new one on, exactly as soon as no other server holds a fresh copy of an old state; one refresh interval is enough.
   */
  lemma FlushHealsIff(cfg: Config, c: Cluster, id: ReadId, server: Server, draw: Draw, lag: nat, ms: nat)
    requires Inv(cfg, c) && DrawValid(cfg, draw) && server !in c.caches
    ensures var c' := FlushedAndRestarted(cfg, c, id, server, draw, lag, ms);
            && c'.timeline == c.timeline + [Installed(Newest(c'), c.now)] && Newest(c').current == draw.current
            && (Inv(cfg, Restarted(c')) <==>
                forall s :: s in c.caches ==> c.caches[s].changeAt <= c.now + ms || c.caches[s] == Newest(c'))
            && (ms >= cfg.refreshMs ==> Inv(cfg, Restarted(c')))
  {
    FlushedAndRestartedIs(cfg, c, id, server, draw, lag, ms);
    var c' := FlushedAndRestarted(cfg, c, id, server, draw, lag, ms);
    CopiesExpireWithinAnInterval(cfg, c);
    RestartedInvIff(cfg, Restarted(c'));
    var r := Restarted(c');
    assert r.caches == c.caches[server := Newest(c')] && r.now == c.now + ms && Newest(r) == Newest(c');
    assert forall s :: s in r.caches <==> s == server || s in c.caches;
    assert forall s :: s in c.caches ==> r.caches[s] == c.caches[s];
  }
}
