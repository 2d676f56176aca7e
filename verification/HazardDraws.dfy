/** Which steps install a hazard state, what such a step leaves behind, and that the patterns announced are those drawn. */
module HazardDraws {
  import opened Common
  import opened RedisStore
  import opened HazardPatterns
  import opened HazardRotation

  /** The steps that install a state: the leader's due timer, the leader's read of a state past its change time, and a read that finds none. */
  predicate Installs(c: Cluster, e: Event) {
    match e
    case TimerFires(server, _, _) => TimerIsDue(c, server) && Leads(c, server)
    case Load(_, server, _, _) =>
      var state := Refreshed(c, server);
      state.None? || (c.now >= state.value.changeAt && Leads(c, server))
    case _ => false
  }

  /** While nothing is missing it is the leader alone that installs: when its timer is due, or when it reads past the change time. */
  lemma InstallsIff(cfg: Config, c: Cluster, e: Event)
    requires Inv(cfg, c) && Allowed(cfg, c, e)
    ensures Installs(c, e) <==>
              match e
              case TimerFires(server, _, _) => Leads(c, server) && server in c.timers && c.now >= c.timers[server]
              case Load(_, server, _, _) => Leads(c, server) && c.now >= Newest(c).changeAt
              case _ => false
  {
    if e.Load? {
      RefreshYieldsNewestIff(cfg, c, e.server);
    }
  }

  /** A server holds a state, Redis holds it until its time to live is over, and the leader has a timer for its change time. */
  ghost predicate Spread(cfg: Config, c: Cluster, server: Server, installed: Installed, lag: nat)
    requires cfg.Valid()
  {
    && server in c.caches && c.caches[server] == installed.state
    && c.entry == Some(Entry(installed.state, installed.at + cfg.TtlSeconds() * 1000))
    && c.history != [] && c.history[0] == installed.state
    && (Leads(c, server) ==> server in c.timers && c.timers[server] == installed.state.changeAt + lag)
  }

  /** The state an installing step leaves: the pattern drawn for it is announced, for one refresh interval from now. */
  ghost predicate IsDrawn(cfg: Config, installed: Installed, now: int, draw: Draw) {
    && installed.at == now
    && installed.state.next == draw.next
    && installed.state.hazardCount == cfg.hazardCount
    && installed.state.changeAt == now + cfg.refreshMs
  }

  /** A step adds one state to those installed, drawn for it and spread, if it installs one at all, and else none. */
  lemma StepInstalls(cfg: Config, c: Cluster, e: Event)
    requires cfg.Valid()
    ensures if Installs(c, e) then
              exists more: Installed ::
                && Next(cfg, c, e).timeline == c.timeline + [more]
                && IsDrawn(cfg, more, c.now, e.draw) && Spread(cfg, Next(cfg, c, e), e.server, more, e.lag)
            else Next(cfg, c, e).timeline == c.timeline
  {
    if Installs(c, e) {
      var c' := Next(cfg, c, e);
      var more := c'.timeline[|c'.timeline| - 1];
      assert c'.timeline == c.timeline + [more];
      assert IsDrawn(cfg, more, c.now, e.draw) && Spread(cfg, c', e.server, more, e.lag);
    }
  }

  /** The patterns announced by a list of states. */
  function Announced(timeline: seq<Installed>): seq<seq<int>> {
    if timeline == [] then []
    else Announced(timeline[..|timeline| - 1]) + [timeline[|timeline| - 1].state.next]
  }

  /** The patterns drawn by the installing steps of a run, in order. */
  function DrawsUsed(cfg: Config, c: Cluster, es: seq<Event>): seq<seq<int>>
    requires cfg.Valid()
    decreases |es|
  {
    if es == [] then []
    else (if Installs(c, es[0]) then [es[0].draw.next] else []) + DrawsUsed(cfg, Next(cfg, c, es[0]), es[1..])
  }

  lemma AnnouncedSnoc(timeline: seq<Installed>, more: Installed)
    ensures Announced(timeline + [more]) == Announced(timeline) + [more.state.next]
  {
    assert (timeline + [more])[..|timeline|] == timeline;
  }

  lemma {:induction false} AnnouncedAt(timeline: seq<Installed>)
    ensures |Announced(timeline)| == |timeline|
    ensures forall i :: 0 <= i < |timeline| ==> Announced(timeline)[i] == timeline[i].state.next
  {
    if timeline != [] {
      AnnouncedAt(timeline[..|timeline| - 1]);
    }
  }

  /**
   * Over every run, whatever is missing from Redis or from memory, the states installed announce the patterns drawn for
   * them, in order, and nothing else.
   */
  lemma {:induction false} AnnouncedAreDrawn(cfg: Config, c: Cluster, es: seq<Event>)
    requires cfg.Valid()
    ensures Announced(Run(cfg, c, es).timeline) == Announced(c.timeline) + DrawsUsed(cfg, c, es)
    decreases |es|
  {
    if es != [] {
      var c' := Next(cfg, c, es[0]);
      StepInstalls(cfg, c, es[0]);
      AnnouncedAreDrawn(cfg, c', es[1..]);
      if Installs(c, es[0]) {
        var more :| c'.timeline == c.timeline + [more] && IsDrawn(cfg, more, c.now, es[0].draw);
        AnnouncedSnoc(c.timeline, more);
      }
    }
  }

  /** Every state installed in a run has the configured number of hazards and lasts one refresh interval; those before it stay as they are. */
  lemma {:induction false} RunInstallsByConfig(cfg: Config, c: Cluster, es: seq<Event>)
    requires cfg.Valid()
    ensures var timeline := Run(cfg, c, es).timeline;
            && c.timeline <= timeline
            && forall i :: |c.timeline| <= i < |timeline| ==>
                 timeline[i].state.hazardCount == cfg.hazardCount && timeline[i].state.changeAt == timeline[i].at + cfg.refreshMs
    decreases |es|
  {
    if es != [] {
      StepInstalls(cfg, c, es[0]);
      RunInstallsByConfig(cfg, Next(cfg, c, es[0]), es[1..]);
    }
  }

  lemma DrawIsAnnounced(cfg: Config, c: Cluster, es: seq<Event>, k: nat)
    requires cfg.Valid() && k < |DrawsUsed(cfg, c, es)|
    ensures var timeline := Run(cfg, c, es).timeline;
            |c.timeline| + k < |timeline| && timeline[|c.timeline| + k].state.next == DrawsUsed(cfg, c, es)[k]
  {
    AnnouncedAreDrawn(cfg, c, es);
    AnnouncedAt(c.timeline);
    AnnouncedAt(Run(cfg, c, es).timeline);
  }

  lemma AnnouncedIsInForce(cfg: Config, c: Cluster, i: nat, t: int)
    requires Inv(cfg, c) && i < |c.timeline| && c.timeline[i].state.changeAt <= t
    requires i + 1 < |c.timeline| ==> t < c.timeline[i + 1].state.changeAt
    ensures ActiveAt(c.timeline, t) == c.timeline[i].state.next
  {
    if i + 1 < |c.timeline| {
      NextPatternLastsAnInterval(cfg, c, i, t);
    } else {
      StateTellsActive(cfg, c.timeline, i, t);
    }
  }

  /**
   * What the players meet: over every run in which no state is missing when it is needed, the pattern drawn by the k-th
   * installing step is in force from that state's change time on, until the change time of the state after it if there is one.
   */
  lemma DrawnPatternsComeIntoForce(cfg: Config, c: Cluster, es: seq<Event>, k: nat, t: int)
    requires Inv(cfg, c) && AllowedRun(cfg, c, es) && k < |DrawsUsed(cfg, c, es)|
    ensures var timeline, i := Run(cfg, c, es).timeline, |c.timeline| + k;
            && i < |timeline|
            && (timeline[i].state.changeAt <= t && (i + 1 < |timeline| ==> t < timeline[i + 1].state.changeAt) ==>
                  ActiveAt(timeline, t) == DrawsUsed(cfg, c, es)[k])
  {
    var c', i := Run(cfg, c, es), |c.timeline| + k;
    RunKeepsInv(cfg, c, es);
    DrawIsAnnounced(cfg, c, es, k);
    if c'.timeline[i].state.changeAt <= t && (i + 1 < |c'.timeline| ==> t < c'.timeline[i + 1].state.changeAt) {
      AnnouncedIsInForce(cfg, c', i, t);
    }
  }

  // ---------------------------------------------------------------- the leader goes on rotating

  /** What the leader reads has its change time still ahead; found in good order, it is the newest state. */
  lemma LeaderReadsUpToDate(cfg: Config, c: Cluster, e: Event)
    requires cfg.Valid() && e.Load? && Leads(c, e.server)
    ensures var c' := Next(cfg, c, e);
            && e.id in c'.reading && c'.now == c.now && c'.reading[e.id].state.changeAt > c.now
            && (Inv(cfg, c) && Allowed(cfg, c, e) ==> c'.timeline != [] && c'.reading[e.id].state == Newest(c') && Newest(c').changeAt > c.now)
  {
    if Inv(cfg, c) && Allowed(cfg, c, e) {
      LoadYieldsNewest(cfg, c, e.server, e.draw, e.lag);
      NextKeepsInv(cfg, c, e);
    }
  }

  ghost predicate LeaderHasTimer(c: Cluster) {
    c.leader.Some? ==> c.leader.value in c.timers
  }

  /** A leader that has a timer loses it to no step but its own restart; a server that becomes the leader starts without one. */
  lemma LeaderKeepsTimerIff(cfg: Config, c: Cluster, e: Event)
    requires cfg.Valid() && LeaderHasTimer(c)
    ensures LeaderHasTimer(Next(cfg, c, e)) <==> !(e.StartUp? && (c.leader.None? || Leads(c, e.server)))
  {}

  /** Any state the leader installs gives it a timer again, and while it has one, that is when it rotates next. */
  lemma {:induction false} LeaderRotatesOn(cfg: Config, c: Cluster, es: seq<Event>)
    requires cfg.Valid() && LeaderHasTimer(c) && forall i :: 0 <= i < |es| ==> !es[i].StartUp?
    ensures var c' := Run(cfg, c, es);
            && LeaderHasTimer(c')
            && forall draw, lag, ms: nat :: c'.leader.Some? && c'.now + ms >= c'.timers[c'.leader.value] ==>
                 Installs(Next(cfg, c', Tick(ms)), TimerFires(c'.leader.value, draw, lag))
    decreases |es|
  {
    if es != [] {
      LeaderKeepsTimerIff(cfg, c, es[0]);
      LeaderRotatesOn(cfg, Next(cfg, c, es[0]), es[1..]);
    }
  }

  // ---------------------------------------------------------------- notifications and restarts

  /** A server told of a rotation, or started anew, goes to Redis at its next refresh; one started while nobody leads is elected. */
  lemma ForgetfulServerAsksRedis(cfg: Config, c: Cluster, e: Event)
    requires cfg.Valid() && (e.Invalidate? || e.StartUp?)
    ensures var c' := Next(cfg, c, e);
            && Refreshed(c', e.server) == (if EntryLive(c) then Some(c.entry.value.value) else None)
            && (forall s :: s != e.server ==> Refreshed(c', s) == Refreshed(c, s))
            && (Leads(c', e.server) <==> Leads(c, e.server) || (e.StartUp? && c.leader.None?))
            && (c.leader.Some? ==> c'.leader == c.leader)
  {}
}
