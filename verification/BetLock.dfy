/**
 * Bet flows of one user and agent, interleaved (game-play.service.ts, performBetFlow): the lock, the look at the
 * stored session, the write of the new one, the release. The lock carries no owner; `owner` is kept for the proof.
 */
module BetLock {
  import opened Common
  import opened RedisStore

  const BET_LOCK_TTL := 30 // seconds

  type FlowId = nat

  /** A flow that has acquired the lock; `checked` once it has found no active session. */
  datatype Flow = Flow(gameCode: string, checked: bool, deadline: int)

  /** The stored session of a game: which flow wrote it, and whether it is still active. */
  datatype Stored = Stored(writer: FlowId, active: bool)

  datatype System = System(
    now: int,
    lock: Option<Entry<()>>,
    owner: Option<FlowId>,
    flows: map<FlowId, Flow>,
    sessions: map<string, Stored>)

  datatype Event =
    | Tick(ms: nat)
    | Acquire(flow: FlowId, gameCode: string)
    | Check(flow: FlowId)
    | Write(flow: FlowId)
    | Release(flow: FlowId)
    | Crash(flow: FlowId)
    | SessionEnds(gameCode: string)
    | SessionGone(gameCode: string)
    | Flush

  predicate LockLive(s: System) {
    s.lock.Some? && s.now < s.lock.value.expiresAt
  }

  predicate ActiveAt(s: System, gameCode: string) {
    gameCode in s.sessions && s.sessions[gameCode].active
  }

  /** releaseLock deletes the key, whoever set it. */
  function ReleaseLock(s: System, flow: FlowId): System {
    s.(lock := None, owner := None, flows := s.flows - {flow})
  }

  function Next(s: System, e: Event): System {
    match e
    case Tick(ms) => s.(now := s.now + ms)
    case Acquire(flow, gameCode) =>
      if flow in s.flows || LockLive(s) then s
      else
        var expiresAt := s.now + BET_LOCK_TTL * 1000;
        s.(lock := Some(Entry((), expiresAt)), owner := Some(flow), flows := s.flows[flow := Flow(gameCode, false, expiresAt)])
    case Check(flow) =>
      if flow !in s.flows then s
      else if ActiveAt(s, s.flows[flow].gameCode) then ReleaseLock(s, flow)
      else s.(flows := s.flows[flow := s.flows[flow].(checked := true)])
    case Write(flow) =>
      if flow !in s.flows || !s.flows[flow].checked then s
      else s.(sessions := s.sessions[s.flows[flow].gameCode := Stored(flow, true)],
              flows := s.flows[flow := s.flows[flow].(checked := false)])
    case Release(flow) => if flow !in s.flows then s else ReleaseLock(s, flow)
    case Crash(flow) => s.(flows := s.flows - {flow})
    case SessionEnds(gameCode) =>
      if gameCode in s.sessions then s.(sessions := s.sessions[gameCode := s.sessions[gameCode].(active := false)]) else s
    case SessionGone(gameCode) => s.(sessions := s.sessions - {gameCode})
    case Flush => s.(lock := None, owner := None, sessions := map[])
  }

  function Run(s: System, es: seq<Event>): System
    decreases |es|
  {
    if es == [] then s else Run(Next(s, es[0]), es[1..])
  }

  /** Each flow ends, or its server dies, within the 30 seconds of its lock, and Redis is not flushed during a flow. */
  predicate Timely(s: System, e: Event) {
    && (e.Tick? ==> forall f :: f in s.flows ==> s.now + e.ms < s.flows[f].deadline)
    && (e.Flush? ==> s.flows == map[])
  }

  ghost predicate TimelyRun(s: System, es: seq<Event>)
    decreases |es|
  {
    es == [] || (Timely(s, es[0]) && TimelyRun(Next(s, es[0]), es[1..]))
  }

  /** A flow under way owns the live lock, so there is at most one; after its check its game has no active session. */
  ghost predicate Inv(s: System) {
    forall f :: f in s.flows ==>
      && s.owner == Some(f)
      && s.now < s.flows[f].deadline
      && s.lock == Some(Entry((), s.flows[f].deadline))
      && (s.flows[f].checked ==> !ActiveAt(s, s.flows[f].gameCode))
  }

  lemma StartSatisfiesInv(now: int)
    ensures Inv(System(now, None, None, map[], map[]))
  {}

  /** This step neither replaces an active session nor removes a lock that another flow has set. */
  ghost predicate StepIsSafe(s: System, e: Event) {
    && (e.Write? && e.flow in s.flows && s.flows[e.flow].checked ==> !ActiveAt(s, s.flows[e.flow].gameCode))
    && ((e.Release? || e.Check?) && e.flow in s.flows && LockLive(s) && Next(s, e).lock.None? ==> s.owner == Some(e.flow))
  }

  ghost predicate SafeRun(s: System, es: seq<Event>)
    decreases |es|
  {
    es == [] || (StepIsSafe(s, es[0]) && SafeRun(Next(s, es[0]), es[1..]))
  }

  /** In every timely interleaving no active session is overwritten and every release removes the releasing flow's own lock. */
  lemma {:induction false} BetFlowsExcludeEachOther(s: System, es: seq<Event>)
    requires Inv(s) && TimelyRun(s, es)
    ensures SafeRun(s, es) && Inv(Run(s, es))
    decreases |es|
  {
    if es != [] {
      BetFlowsExcludeEachOther(Next(s, es[0]), es[1..]);
    }
  }

  /** A flow that nothing comes between: refused while another holds the lock, else its session stands, unless one was active, and the lock is free. */
  lemma LoneFlowStoresSession(s: System, flow: FlowId, gameCode: string)
    requires flow !in s.flows
    ensures var s' := Next(Next(Next(Next(s, Acquire(flow, gameCode)), Check(flow)), Write(flow)), Release(flow));
            if LockLive(s) then s' == s
            else s' == s.(lock := None, owner := None,
                          sessions := if ActiveAt(s, gameCode) then s.sessions else s.sessions[gameCode := Stored(flow, true)])
  {
    var s1 := Next(s, Acquire(flow, gameCode));
    if !LockLive(s) {
      assert s1.flows - {flow} == s.flows;
      assert ActiveAt(s1, gameCode) == ActiveAt(s, gameCode);
      if !ActiveAt(s, gameCode) {
        assert Next(Next(s1, Check(flow)), Write(flow)).flows - {flow} == s.flows;
      }
    }
  }

  // ---------------------------------------------------------------- what it rests on, exactly

  /** Bet flows, ends of games and crashes in any order, while the clock stands and Redis is left alone. */
  predicate Quiet(es: seq<Event>) {
    forall i :: 0 <= i < |es| ==> !es[i].Tick? && !es[i].Flush?
  }

  lemma {:induction false} QuietRunIsTimely(s: System, es: seq<Event>)
    requires Quiet(es)
    ensures TimelyRun(s, es)
    decreases |es|
  {
    if es != [] {
      assert Timely(s, es[0]);
      QuietRunIsTimely(Next(s, es[0]), es[1..]);
    }
  }

  lemma SafeRunOfCons(s: System, e: Event, es: seq<Event>)
    ensures SafeRun(s, [e] + es) <==> StepIsSafe(s, e) && SafeRun(Next(s, e), es)
  {
    assert ([e] + es)[1..] == es;
  }

  /** A flow that has lost its lock writes over the session of a second flow. */
  lemma LostLockOverwrites(s: System, flow: FlowId, other: FlowId)
    requires flow in s.flows && !LockLive(s) && other !in s.flows
    ensures var g := s.flows[flow].gameCode;
            !SafeRun(s, [SessionEnds(g)] + ([Acquire(other, g)] + ([Check(other)] + ([Check(flow)] + ([Write(other)] + ([Write(flow)] + []))))))
  {
    var g := s.flows[flow].gameCode;
    var es1 := [Write(flow)] + [];
    var es2 := [Write(other)] + es1;
    var es3 := [Check(flow)] + es2;
    var es4 := [Check(other)] + es3;
    var es5 := [Acquire(other, g)] + es4;
    var s1 := Next(s, SessionEnds(g));
    var s2 := Next(s1, Acquire(other, g));
    var s3 := Next(s2, Check(other));
    var s4 := Next(s3, Check(flow));
    var s5 := Next(s4, Write(other));
    SafeRunOfCons(s, SessionEnds(g), es5);
    SafeRunOfCons(s1, Acquire(other, g), es4);
    SafeRunOfCons(s2, Check(other), es3);
    SafeRunOfCons(s3, Check(flow), es2);
    SafeRunOfCons(s4, Write(other), es1);
    SafeRunOfCons(s5, Write(flow), []);
    assert !ActiveAt(s1, g) && other in s2.flows && s3.flows[other].checked && s4.flows[flow].checked;
    assert ActiveAt(s5, g) && s5.flows[flow].checked;
  }

  /**
   * From any state the flows can be in: after a step, every interleaving of the flow under way with others is safe, exactly
   * when that step leaves the flow its lock: the clock stays short of its 30 seconds, and Redis is not flushed during it.
   */
  lemma SafeIffTimely(s: System, e: Event)
    requires Inv(s)
    ensures (forall es :: Quiet(es) ==> SafeRun(Next(s, e), es)) <==> Timely(s, e)
  {
    if Timely(s, e) {
      BetFlowsExcludeEachOther(s, [e]);
      assert Run(s, [e]) == Next(s, e) by {
        assert [e][1..] == [];
      }
      forall es | Quiet(es) ensures SafeRun(Next(s, e), es) {
        QuietRunIsTimely(Next(s, e), es);
        BetFlowsExcludeEachOther(Next(s, e), es);
      }
    } else {
      var flow :| flow in s.flows && (e.Tick? ==> s.now + e.ms >= s.flows[flow].deadline);
      var g := s.flows[flow].gameCode;
      assert forall f :: f in s.flows ==> f == flow;
      LostLockOverwrites(Next(s, e), flow, flow + 1);
      var es := [SessionEnds(g)] + ([Acquire(flow + 1, g)] + ([Check(flow + 1)] + ([Check(flow)] + ([Write(flow + 1)] + ([Write(flow)] + [])))));
      assert Quiet(es);
    }
  }
}
