/** Provably fair seeds (fairness.service.ts): the commitment made before a bet is the one revealed after it. */
module Fairness {
  import opened Common

  datatype Seeds = Seeds(userSeed: string, serverSeed: string, hashedServerSeed: string, nonce: nat)

  /** The fairness record stored with a settled bet. */
  datatype Revealed = Revealed(clientSeed: string, serverSeed: string, combinedHash: string, hashedServerSeed: string)

  /** What the player could see when the bet was placed. */
  datatype Commitment = Commitment(userSeed: string, hashedServerSeed: string)

  predicate IsHexDigit(c: char) {
    '0' <= c <= '9' || 'a' <= c <= 'f' || 'A' <= c <= 'F'
  }

  /** `/^[0-9a-fA-F]{16}$/`. */
  predicate IsUserSeed(s: string) {
    |s| == 16 && forall c :: c in s ==> IsHexDigit(c)
  }

  function LowerDigit(c: char): char {
    if 'A' <= c <= 'F' then c - 'A' + 'a' else c
  }

  function Lower(s: string): string {
    seq(|s|, i requires 0 <= i < |s| => LowerDigit(s[i]))
  }

  function HexValue(c: char): int
    requires IsHexDigit(c)
  {
    if c <= '9' then c as int - '0' as int else if c <= 'F' then c as int - 'A' as int + 10 else c as int - 'a' as int + 10
  }

  /** Lower-casing leaves sixteen hexadecimal digits of the same value, none of them in upper case. */
  lemma LowerKeepsUserSeed(s: string)
    requires IsUserSeed(s)
    ensures IsUserSeed(Lower(s)) && Lower(Lower(s)) == Lower(s)
    ensures forall c :: c in Lower(s) ==> !('A' <= c <= 'F')
    ensures forall i :: 0 <= i < |s| ==> IsHexDigit(s[i]) && IsHexDigit(Lower(s)[i]) && HexValue(Lower(s)[i]) == HexValue(s[i])
  {
    forall i | 0 <= i < |s| ensures IsHexDigit(s[i]) && IsHexDigit(Lower(s)[i]) && LowerDigit(Lower(s)[i]) == Lower(s)[i] {
      assert s[i] in s;
    }
  }

  /** generateFairnessDataForBet, with the hash left open. */
  function Reveal(hash: string -> string, userSeed: string, serverSeed: string): Revealed {
    Revealed(userSeed, serverSeed, hash(userSeed + serverSeed), hash(serverSeed))
  }

  // ---------------------------------------------------------------- the machine

  /**
   * `record` is the stored seeds of one user and agent; `playing` the seeds in the sessions of open bets; `revealed`
   * what was stored at settlement. `committed` and `rotations` are kept for the statements: what was in force at each
   * bet, and how often the present record has been rotated.
   */
  datatype System = System(
    record: Option<Seeds>,
    playing: map<TxId, Seeds>,
    revealed: map<TxId, Revealed>,
    committed: map<TxId, Commitment>,
    rotations: nat,
    issued: set<string>,
    count: nat,
    placedUnder: map<TxId, nat>)

  /** The random values an operation may need. */
  datatype Drawn = Drawn(userSeed: string, serverSeed: string)

  datatype Event =
    | PlaceBet(tx: TxId, drawn: Drawn)
    | Settle(tx: TxId, drawn: Drawn, rotated: bool, next: string)
    | SetUserSeed(userSeed: string, drawn: Drawn)
    | GetSeeds(drawn: Drawn)
    | RecordExpires
    | SessionGone(tx: TxId)

  /** getOrCreateFairness. */
  function GetOrCreate(hash: string -> string, s: System, drawn: Drawn): System {
    if s.record.Some? then s
    else
      s.(record := Some(Seeds(drawn.userSeed, drawn.serverSeed, hash(drawn.serverSeed), 0)), rotations := 0,
         issued := s.issued + {drawn.serverSeed}, count := s.count + 1)
  }

  /** rotateSeeds: a new server seed, the nonce one higher. */
  function Rotate(hash: string -> string, s: System, first: Drawn, next: string): System {
    var got := GetOrCreate(hash, s, first);
    var seeds := got.record.value;
    got.(record := Some(seeds.(serverSeed := next, hashedServerSeed := hash(next), nonce := seeds.nonce + 1)),
         rotations := got.rotations + 1, issued := got.issued + {next}, count := got.count + 1)
  }

  function Next(hash: string -> string, s: System, e: Event): System {
    match e
    case PlaceBet(tx, drawn) =>
      var got := GetOrCreate(hash, s, drawn);
      var seeds := got.record.value;
      got.(playing := got.playing[tx := seeds], committed := got.committed[tx := Commitment(seeds.userSeed, seeds.hashedServerSeed)],
           placedUnder := got.placedUnder[tx := got.count])
    case Settle(tx, drawn, rotated, next) =>
      if tx !in s.playing then s
      else
        var seeds := s.playing[tx];
        var settled := s.(revealed := s.revealed[tx := Reveal(hash, seeds.userSeed, seeds.serverSeed)], playing := s.playing - {tx});
        // a failing rotation is logged and ignored
        if rotated then Rotate(hash, settled, drawn, next) else settled
    case SetUserSeed(userSeed, drawn) =>
      if !IsUserSeed(userSeed) then s
      else
        var got := GetOrCreate(hash, s, drawn);
        got.(record := Some(got.record.value.(userSeed := Lower(userSeed))))
    case GetSeeds(drawn) => GetOrCreate(hash, s, drawn)
    case RecordExpires => s.(record := None)
    case SessionGone(tx) => s.(playing := s.playing - {tx})
  }

  function Run(hash: string -> string, s: System, es: seq<Event>): System
    decreases |es|
  {
    if es == [] then s else Run(hash, Next(hash, s, es[0]), es[1..])
  }

  /** Transaction ids are new, and generated user seeds are 16 hexadecimal digits. */
  predicate Allowed(s: System, e: Event) {
    match e
    case PlaceBet(tx, drawn) => tx !in s.committed && IsUserSeed(drawn.userSeed)
    case Settle(_, drawn, _, _) => IsUserSeed(drawn.userSeed)
    case SetUserSeed(_, drawn) => IsUserSeed(drawn.userSeed)
    case GetSeeds(drawn) => IsUserSeed(drawn.userSeed)
    case _ => true
  }

  ghost predicate AllowedRun(hash: string -> string, s: System, es: seq<Event>)
    decreases |es|
  {
    es == [] || (Allowed(s, es[0]) && AllowedRun(hash, Next(hash, s, es[0]), es[1..]))
  }

  /** Seeds whose published hash commits to their server seed. */
  predicate Committed(hash: string -> string, seeds: Seeds) {
    seeds.hashedServerSeed == hash(seeds.serverSeed) && IsUserSeed(seeds.userSeed)
  }

  ghost predicate Inv(hash: string -> string, s: System) {
    && (s.record.Some? ==> Committed(hash, s.record.value) && s.record.value.nonce == s.rotations)
    && (forall t :: t in s.playing ==>
          Committed(hash, s.playing[t]) && t in s.committed
          && s.committed[t] == Commitment(s.playing[t].userSeed, s.playing[t].hashedServerSeed))
    && (forall t :: t in s.revealed ==> t in s.committed && t !in s.playing && RevealMatches(hash, s.revealed[t], s.committed[t]))
  }

  /** The revealed seed opens the commitment that was in force when the bet was placed. */
  predicate RevealMatches(hash: string -> string, r: Revealed, c: Commitment) {
    && r.hashedServerSeed == c.hashedServerSeed
    && hash(r.serverSeed) == c.hashedServerSeed
    && r.clientSeed == c.userSeed
    && r.combinedHash == hash(c.userSeed + r.serverSeed)
  }

  lemma StartSatisfiesInv(hash: string -> string)
    ensures Inv(hash, System(None, map[], map[], map[], 0, {}, 0, map[]))
  {}

  lemma RotateKeepsInv(hash: string -> string, s: System, drawn: Drawn, next: string)
    requires Inv(hash, s) && IsUserSeed(drawn.userSeed)
    ensures Inv(hash, GetOrCreate(hash, s, drawn)) && Inv(hash, Rotate(hash, s, drawn, next))
  {}

  lemma PlaceKeepsInv(hash: string -> string, s: System, tx: TxId, drawn: Drawn)
    requires Inv(hash, s) && Allowed(s, PlaceBet(tx, drawn))
    ensures Inv(hash, Next(hash, s, PlaceBet(tx, drawn)))
  {
    RotateKeepsInv(hash, s, drawn, "");
  }

  lemma RevealKeepsInv(hash: string -> string, s: System, tx: TxId)
    requires Inv(hash, s) && tx in s.playing
    ensures Inv(hash, s.(revealed := s.revealed[tx := Reveal(hash, s.playing[tx].userSeed, s.playing[tx].serverSeed)], playing := s.playing - {tx}))
    ensures tx !in s.revealed
  {}

  lemma SettleKeepsInv(hash: string -> string, s: System, e: Event)
    requires Inv(hash, s) && e.Settle? && Allowed(s, e)
    ensures Inv(hash, Next(hash, s, e))
  {
    if e.tx in s.playing {
      var seeds := s.playing[e.tx];
      RevealKeepsInv(hash, s, e.tx);
      RotateKeepsInv(hash, s.(revealed := s.revealed[e.tx := Reveal(hash, seeds.userSeed, seeds.serverSeed)], playing := s.playing - {e.tx}),
                     e.drawn, e.next);
    }
  }

  lemma SetUserSeedKeepsInv(hash: string -> string, s: System, e: Event)
    requires Inv(hash, s) && e.SetUserSeed? && Allowed(s, e)
    ensures Inv(hash, Next(hash, s, e))
  {
    RotateKeepsInv(hash, s, e.drawn, "");
    if IsUserSeed(e.userSeed) {
      LowerKeepsUserSeed(e.userSeed);
    }
  }

  /** The published hash commits to the stored seed, and nothing committed or revealed is altered. */
  lemma NextKeepsInv(hash: string -> string, s: System, e: Event)
    requires Inv(hash, s) && Allowed(s, e)
    ensures Inv(hash, Next(hash, s, e))
    ensures forall t :: t in s.revealed ==> t in Next(hash, s, e).revealed && Next(hash, s, e).revealed[t] == s.revealed[t]
    ensures forall t :: t in s.committed ==> t in Next(hash, s, e).committed && Next(hash, s, e).committed[t] == s.committed[t]
  {
    match e
    case PlaceBet(tx, drawn) => PlaceKeepsInv(hash, s, tx, drawn);
    case Settle(_, _, _, _) => SettleKeepsInv(hash, s, e);
    case SetUserSeed(_, _) => SetUserSeedKeepsInv(hash, s, e);
    case GetSeeds(drawn) => RotateKeepsInv(hash, s, drawn, "");
    case _ =>
  }

  /** Over every interleaving each settled bet reveals the seeds its player was committed to, and keeps doing so. */
  lemma {:induction false} RevealOpensCommitment(hash: string -> string, s: System, es: seq<Event>)
    requires Inv(hash, s) && AllowedRun(hash, s, es)
    ensures var s' := Run(hash, s, es);
            && Inv(hash, s')
            && (forall t :: t in s.committed ==> t in s'.committed && s'.committed[t] == s.committed[t])
            && (forall t :: t in s'.revealed ==> t in s'.committed && RevealMatches(hash, s'.revealed[t], s'.committed[t]))
    decreases |es|
  {
    if es != [] {
      NextKeepsInv(hash, s, es[0]);
      RevealOpensCommitment(hash, Next(hash, s, es[0]), es[1..]);
    }
  }

  /** A bet commits the player to the stored seeds, a new record being made if there is none; nothing else changes. */
  lemma BetCommits(hash: string -> string, s: System, tx: TxId, drawn: Drawn)
    ensures var s' := Next(hash, s, PlaceBet(tx, drawn));
            && s'.record.Some? && s'.revealed == s.revealed
            && s'.record.value == (if s.record.Some? then s.record.value else Seeds(drawn.userSeed, drawn.serverSeed, hash(drawn.serverSeed), 0))
            && s'.playing == s.playing[tx := s'.record.value]
            && s'.committed == s.committed[tx := Commitment(s'.record.value.userSeed, s'.record.value.hashedServerSeed)]
  {}

  /**
   * A settlement reveals: what is stored opens the bet's commitment, and the seeds of the next bet have a new server seed
   * and the next nonce, the player's seed staying, exactly unless the rotation failed.
   */
  lemma SettlementReveals(hash: string -> string, s: System, tx: TxId, drawn: Drawn, rotated: bool, next: string)
    requires Inv(hash, s) && tx in s.playing
    ensures var s' := Next(hash, s, Settle(tx, drawn, rotated, next));
            && tx in s.committed && tx in s'.revealed && RevealMatches(hash, s'.revealed[tx], s.committed[tx])
            && s'.revealed == s.revealed[tx := s'.revealed[tx]]
            && s'.playing == s.playing - {tx} && s'.committed == s.committed
            && (!rotated ==> s'.record == s.record)
            && (rotated ==>
                  && s'.record.Some? && s'.record.value.serverSeed == next && s'.record.value.hashedServerSeed == hash(next)
                  && (if s.record.Some? then s'.record.value.userSeed == s.record.value.userSeed && s'.record.value.nonce == s.record.value.nonce + 1
                      else s'.record.value.userSeed == drawn.userSeed && s'.record.value.nonce == 1))
  {
    RevealKeepsInv(hash, s, tx);
  }

  // ---------------------------------------------------------------- the player's own seed

  lemma {:induction false} UserSeedStays(hash: string -> string, s: System, es: seq<Event>)
    requires s.record.Some? && forall i :: 0 <= i < |es| ==> !es[i].SetUserSeed? && !es[i].RecordExpires?
    ensures var s' := Run(hash, s, es); s'.record.Some? && s'.record.value.userSeed == s.record.value.userSeed
    decreases |es|
  {
    if es != [] {
      UserSeedStays(hash, Next(hash, s, es[0]), es[1..]);
    }
  }

  /**
   * After a player has set a seed, the next bet is committed to it, whatever bets, settlements and rotations come between,
   * until the seed is set again or the record expires. A seed of the wrong format changes nothing at all.
   */
  lemma BetIsCommittedToSetSeed(hash: string -> string, s: System, userSeed: string, drawn: Drawn, es: seq<Event>, tx: TxId, another: Drawn)
    requires forall i :: 0 <= i < |es| ==> !es[i].SetUserSeed? && !es[i].RecordExpires?
    ensures if IsUserSeed(userSeed) then
              var s' := Next(hash, Run(hash, Next(hash, s, SetUserSeed(userSeed, drawn)), es), PlaceBet(tx, another));
              && tx in s'.committed && s'.committed[tx].userSeed == Lower(userSeed)
              && tx in s'.playing && s'.playing[tx].userSeed == Lower(userSeed)
            else Next(hash, s, SetUserSeed(userSeed, drawn)) == s
  {
    if IsUserSeed(userSeed) {
      UserSeedStays(hash, Next(hash, s, SetUserSeed(userSeed, drawn)), es);
    }
  }

  // ---------------------------------------------------------------- the stored record as the service replaces it

  class FairnessService {
    const hash: string -> string
    var record: Option<Seeds>
    ghost var rotations: nat
    ghost var issued: set<string>
    ghost var count: nat

    constructor (hash: string -> string)
      ensures this.hash == hash && record.None? && rotations == 0 && issued == {} && count == 0
    {
      this.hash := hash;
      record, rotations, issued, count := None, 0, {}, 0;
    }

    /** The service's part of the machine. */
    ghost function View(): System
      reads this
    {
      System(record, map[], map[], map[], rotations, issued, count, map[])
    }

    method GetOrCreateFairness(drawn: Drawn) returns (seeds: Seeds)
      modifies this
      ensures View() == GetOrCreate(hash, old(View()), drawn)
      ensures record == Some(seeds)
    {
      if record.Some? {
        return record.value;
      }
      var hashedServerSeed := hash(drawn.serverSeed);
      seeds := Seeds(drawn.userSeed, drawn.serverSeed, hashedServerSeed, 0);
      record, rotations := Some(seeds), 0;
      issued, count := issued + {drawn.serverSeed}, count + 1;
    }

    /** Fails, changing nothing, unless the seed is 16 hexadecimal digits. */
    method SetUserSeed(userSeed: string, drawn: Drawn) returns (ok: bool)
      modifies this
      ensures View() == Next(hash, old(View()), Event.SetUserSeed(userSeed, drawn))
      ensures ok == IsUserSeed(userSeed)
    {
      if !IsUserSeed(userSeed) {
        return false;
      }
      var seeds := GetOrCreateFairness(drawn);
      seeds := seeds.(userSeed := Lower(userSeed));
      record := Some(seeds);
      return true;
    }

    method RotateSeeds(drawn: Drawn, newServerSeed: string)
      modifies this
      ensures View() == Rotate(hash, old(View()), drawn, newServerSeed)
    {
      var seeds := GetOrCreateFairness(drawn);
      seeds := seeds.(serverSeed := newServerSeed, hashedServerSeed := hash(newServerSeed));
      seeds := seeds.(nonce := seeds.nonce + 1);
      record, rotations := Some(seeds), rotations + 1;
      issued, count := issued + {newServerSeed}, count + 1;
    }
  }
}
