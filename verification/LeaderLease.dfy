/** Leader election by a lease in Redis (leader-election.service.ts), with the read and the write of a renewal apart. */
module LeaderLease {
  import opened Common
  import opened RedisStore

  const LEASE_TTL := 5 // seconds
  const LEASE_MS: int := LEASE_TTL * 1000

  type Server = nat

  /** `believes`: the servers whose isCurrentlyLeader is set. `renewing`: those between the read and the write of a renewal. */
  datatype System = System(now: int, lease: Option<Entry<Server>>, believes: set<Server>, renewing: set<Server>)

  datatype Event =
    | Tick(ms: nat)
    | TryBecomeLeader(server: Server)
    | RenewRead(server: Server)
    | RenewWrite(server: Server)
    | ReleaseLeadership(server: Server)
    | Flush

  /** The value a GET of the leadership key returns. */
  function Holder(s: System): Option<Server> {
    if s.lease.Some? && s.now < s.lease.value.expiresAt then Some(s.lease.value.value) else None
  }

  function Leased(s: System, server: Server): System {
    s.(lease := Some(Entry(server, s.now + LEASE_MS)))
  }

  /** Does the step return true to its caller? */
  predicate Succeeds(s: System, e: Event) {
    match e
    case TryBecomeLeader(_) => Holder(s).None?
    case RenewRead(server) => Holder(s) == Some(server)
    case _ => true
  }

  function Next(s: System, e: Event): System {
    match e
    case Tick(ms) => s.(now := s.now + ms)
    case TryBecomeLeader(server) =>
      if Holder(s).Some? then s else Leased(s, server).(believes := s.believes + {server})
    case RenewRead(server) =>
      if Holder(s) == Some(server) then s.(renewing := s.renewing + {server})
      else s.(believes := s.believes - {server})
    case RenewWrite(server) =>
      // an unconditional SET: the owner is not compared again
      if server in s.renewing then Leased(s, server).(renewing := s.renewing - {server}) else s
    case ReleaseLeadership(server) =>
      if Holder(s) == Some(server) then s.(lease := None, believes := s.believes - {server})
      else s.(believes := s.believes - {server})
    case Flush => s.(lease := None)
  }

  function Run(s: System, es: seq<Event>): System
    decreases |es|
  {
    if es == [] then s else Run(Next(s, es[0]), es[1..])
  }

  /** The leader's writes land less than the lease time apart, it does not release its lease, and Redis is not flushed. */
  predicate Renewed(s: System, leader: Server, e: Event) {
    && (e.Tick? ==> s.lease.Some? && s.now + e.ms < s.lease.value.expiresAt)
    && e != ReleaseLeadership(leader) && !e.Flush?
  }

  ghost predicate RenewedRun(s: System, leader: Server, es: seq<Event>)
    decreases |es|
  {
    es == [] || (Renewed(s, leader, es[0]) && RenewedRun(Next(s, es[0]), leader, es[1..]))
  }

  ghost predicate LedBy(s: System, leader: Server) {
    && Holder(s) == Some(leader)
    && leader in s.believes
    && s.renewing <= {leader}
  }

  /** A server whose attempt succeeds leads, when no other server has a renewal under way. */
  lemma ElectedServerLeads(s: System, server: Server)
    requires Succeeds(s, TryBecomeLeader(server)) && s.renewing <= {server}
    ensures LedBy(Next(s, TryBecomeLeader(server)), server) && LeasedSince(Next(s, TryBecomeLeader(server)), server, 0)
  {}

  /** No attempt of any server to become leader succeeds, and the leader's renewals never fail. */
  ghost predicate LeadershipStable(s: System, leader: Server, es: seq<Event>)
    decreases |es|
  {
    es != [] ==>
      && LedBy(s, leader)
      && (es[0].TryBecomeLeader? ==> !Succeeds(s, es[0]))
      && (es[0] == RenewRead(leader) ==> Succeeds(s, es[0]))
      && LeadershipStable(Next(s, es[0]), leader, es[1..])
  }

  /** A leader whose renewals are in time keeps the lease against any interleaving with other servers. */
  lemma {:induction false} RenewedLeaderStays(s: System, leader: Server, es: seq<Event>)
    requires LedBy(s, leader) && RenewedRun(s, leader, es)
    ensures LeadershipStable(s, leader, es) && LedBy(Run(s, es), leader)
    decreases |es|
  {
    if es != [] {
      RenewedLeaderStays(Next(s, es[0]), leader, es[1..]);
    }
  }

  // ---------------------------------------------------------------- the exact limits

  /** Steps of any servers in any order, short of the passing of time, a flush, and the leader's own release. */
  predicate Quiet(leader: Server, es: seq<Event>) {
    forall i :: 0 <= i < |es| ==> !es[i].Tick? && !es[i].Flush? && es[i] != ReleaseLeadership(leader)
  }

  lemma {:induction false} QuietRunIsRenewed(s: System, leader: Server, es: seq<Event>)
    requires Quiet(leader, es)
    ensures RenewedRun(s, leader, es)
    decreases |es|
  {
    if es != [] {
      assert Renewed(s, leader, es[0]);
      QuietRunIsRenewed(Next(s, es[0]), leader, es[1..]);
    }
  }

  /** After a step the leadership is stable in every interleaving exactly when the step is short of the lease's end, no flush and no release. */
  lemma StableIffRenewed(s: System, leader: Server, e: Event)
    requires LedBy(s, leader)
    ensures (forall es :: Quiet(leader, es) ==> LeadershipStable(Next(s, e), leader, es)) <==> Renewed(s, leader, e)
  {
    if Renewed(s, leader, e) {
      forall es | Quiet(leader, es) ensures LeadershipStable(Next(s, e), leader, es) {
        QuietRunIsRenewed(Next(s, e), leader, es);
        RenewedLeaderStays(Next(s, e), leader, es);
      }
    } else {
      assert Quiet(leader, [RenewRead(leader)]);
      assert !LeadershipStable(Next(s, e), leader, [RenewRead(leader)]);
    }
  }

  /** After `ms` milliseconds without a write another server gets the lease exactly when the lease time is over. */
  lemma TakeoverIff(s: System, leader: Server, ms: nat, other: Server)
    requires LedBy(s, leader) && other != leader
    ensures var later := Next(s, Tick(ms));
            Holder(Next(later, TryBecomeLeader(other))) == Some(other) <==> s.now + ms >= s.lease.value.expiresAt
  {}

  /**
   * A renewal that reads its own lease and writes `ms` milliseconds later robs another server of a live lease exactly
   * when the lease it had read was over by then, because the write does not look again.
   */
  lemma LateRenewalStealsIff(s: System, leader: Server, ms: nat, other: Server)
    requires LedBy(s, leader) && other != leader
    ensures var late := Next(Next(Next(s, RenewRead(leader)), Tick(ms)), TryBecomeLeader(other));
            Holder(late) == Some(other) && Holder(Next(late, RenewWrite(leader))) == Some(leader)
            <==> s.now + ms >= s.lease.value.expiresAt
  {}

  // ---------------------------------------------------------------- the same by the times of the writes

  /** The time since the leader last wrote its lease. */
  function SinceWrite(s: System, leader: Server, e: Event, since: int): int {
    match e
    case Tick(ms) => since + ms
    case RenewWrite(server) => if server == leader && leader in s.renewing then 0 else since
    case _ => since
  }

  /** The leader's writes land less than the lease time apart, it does not release its lease, and Redis is not flushed. */
  ghost predicate WritesInTime(s: System, leader: Server, es: seq<Event>, since: int)
    decreases |es|
  {
    && since < LEASE_MS
    && (es != [] ==>
          && es[0] != ReleaseLeadership(leader) && !es[0].Flush?
          && WritesInTime(Next(s, es[0]), leader, es[1..], SinceWrite(s, leader, es[0], since)))
  }

  /** The lease runs from the leader's last write. */
  ghost predicate LeasedSince(s: System, leader: Server, since: int) {
    && s.lease == Some(Entry(leader, s.now - since + LEASE_MS))
    && leader in s.believes && s.renewing <= {leader}
  }

  /** Reading its own live lease and writing it back, less than the lease time after the last write, gives the leader the full time again. */
  lemma RenewalExtends(s: System, leader: Server, since: int, ms: nat)
    requires LeasedSince(s, leader, since) && since + ms < LEASE_MS
    ensures var renewed := Next(Next(Next(s, Tick(ms)), RenewRead(leader)), RenewWrite(leader));
            renewed.now == s.now + ms && LeasedSince(renewed, leader, 0)
  {}

  lemma {:induction false} RenewedIffWritesInTime(s: System, leader: Server, es: seq<Event>, since: int)
    requires LeasedSince(s, leader, since) && since < LEASE_MS
    ensures RenewedRun(s, leader, es) <==> WritesInTime(s, leader, es, since)
    decreases |es|
  {
    if es != [] && Renewed(s, leader, es[0]) {
      var since' := SinceWrite(s, leader, es[0], since);
      assert LeasedSince(Next(s, es[0]), leader, since') && since' < LEASE_MS;
      RenewedIffWritesInTime(Next(s, es[0]), leader, es[1..], since');
    }
  }

  /**
   * Whatever the other servers do, a leader whose writes land less than five seconds apart keeps the lease: no attempt of
   * another server succeeds, none of its renewals fails, and it leads at the end.
   */
  lemma WritesInTimeKeepLease(s: System, leader: Server, es: seq<Event>, since: int)
    requires LeasedSince(s, leader, since) && WritesInTime(s, leader, es, since)
    ensures LeadershipStable(s, leader, es) && LedBy(Run(s, es), leader)
  {
    RenewedIffWritesInTime(s, leader, es, since);
    RenewedLeaderStays(s, leader, es);
  }

  /** A leader that gives up its lease can be replaced at once; nobody else can take the lease from it by giving up. */
  lemma ReleaseFreesLease(s: System, leader: Server, other: Server, server: Server)
    requires LedBy(s, leader)
    ensures var released := Next(s, ReleaseLeadership(server));
            && Holder(released) == (if server == leader then None else Some(leader))
            && server !in released.believes
            && Holder(Next(released, TryBecomeLeader(other))) == Some(if server == leader then other else leader)
  {}

  // ---------------------------------------------------------------- the service object of one server

  class LeaderElectionService {
    const serverId: Server
    const redis: RedisClient<string, Server>
    const leadershipKey: string
    var isCurrentlyLeader: bool
    var renewalTimerRunning: bool

    constructor (serverId: Server, redis: RedisClient<string, Server>, leadershipKey: string)
      ensures this.serverId == serverId && this.redis == redis && this.leadershipKey == leadershipKey
      ensures !isCurrentlyLeader && !renewalTimerRunning
    {
      this.serverId, this.redis, this.leadershipKey := serverId, redis, leadershipKey;
      isCurrentlyLeader, renewalTimerRunning := false, false;
    }

    /** The lease as this server's key holds it, and this server's part of `believes`. */
    ghost function Lease(now: int): System
      reads this, redis
    {
      System(now, if leadershipKey in redis.entries then Some(redis.entries[leadershipKey]) else None,
             if isCurrentlyLeader then {serverId} else {}, {})
    }

    method TryBecomeLeader(now: int) returns (acquired: bool)
      modifies this, redis
      ensures Lease(now) == Next(old(Lease(now)), Event.TryBecomeLeader(serverId))
      ensures acquired == Succeeds(old(Lease(now)), Event.TryBecomeLeader(serverId))
      ensures acquired ==> renewalTimerRunning
    {
      acquired := redis.SetIfAbsent(leadershipKey, serverId, LEASE_TTL, now);
      if acquired {
        isCurrentlyLeader := true;
        renewalTimerRunning := true;
      }
    }

    /** Reads and, if the lease is still this server's, writes at once. */
    method RenewLease(now: int) returns (renewed: bool)
      modifies this, redis
      ensures var read := Next(old(Lease(now)), RenewRead(serverId));
              Lease(now) == Next(read, RenewWrite(serverId))
      ensures renewed == Succeeds(old(Lease(now)), RenewRead(serverId))
      ensures renewalTimerRunning == (old(renewalTimerRunning) && renewed)
    {
      var currentLeader := redis.Get(leadershipKey, now);
      if currentLeader != Some(serverId) {
        isCurrentlyLeader := false;
        renewalTimerRunning := false;
        return false;
      }
      redis.Set(leadershipKey, serverId, LEASE_TTL, now);
      return true;
    }

    /** Asks Redis and corrects the local flag. */
    method IsLeader(now: int) returns (isLeader: bool)
      modifies this
      ensures isLeader <==> Holder(old(Lease(now))) == Some(serverId)
      ensures isCurrentlyLeader == isLeader
      ensures renewalTimerRunning == if old(isCurrentlyLeader) == isLeader then old(renewalTimerRunning) else isLeader
    {
      var currentLeader := redis.Get(leadershipKey, now);
      isLeader := currentLeader == Some(serverId);
      if isCurrentlyLeader && !isLeader {
        isCurrentlyLeader := false;
        renewalTimerRunning := false;
      } else if !isCurrentlyLeader && isLeader {
        isCurrentlyLeader := true;
        renewalTimerRunning := true;
      }
    }

    method ReleaseLeadership(now: int)
      modifies this, redis
      ensures Lease(now) == Next(old(Lease(now)), Event.ReleaseLeadership(serverId))
      ensures !renewalTimerRunning
    {
      var currentLeader := redis.Get(leadershipKey, now);
      if currentLeader == Some(serverId) {
        redis.Del(leadershipKey);
      }
      isCurrentlyLeader := false;
      renewalTimerRunning := false;
    }
  }
}
