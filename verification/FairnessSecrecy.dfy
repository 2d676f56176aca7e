/** Whether a revealed server seed is still in play: exactly which settlements give one away. */
module FairnessSecrecy {
  import opened Common
  import opened Fairness

  /** The server seeds a step generates are new ones. */
  predicate NewSeeds(s: System, e: Event) {
    match e
    case PlaceBet(_, drawn) => s.record.None? ==> drawn.serverSeed !in s.issued
    case SetUserSeed(userSeed, drawn) => IsUserSeed(userSeed) && s.record.None? ==> drawn.serverSeed !in s.issued
    case GetSeeds(drawn) => s.record.None? ==> drawn.serverSeed !in s.issued
    case Settle(tx, drawn, rotated, next) =>
      tx in s.playing && rotated ==>
        next !in s.issued && (s.record.None? ==> drawn.serverSeed !in s.issued && next != drawn.serverSeed)
    case _ => true
  }

  ghost predicate NewSeedsRun(hash: string -> string, s: System, es: seq<Event>)
    decreases |es|
  {
    es == [] || (NewSeeds(s, es[0]) && NewSeedsRun(hash, Next(hash, s, es[0]), es[1..]))
  }

  /** Seeds generated one after the other are told apart by their numbers. */
  ghost predicate SeedsNumbered(s: System) {
    && (s.record.Some? ==> s.record.value.serverSeed in s.issued)
    && (forall t :: t in s.playing ==> s.playing[t].serverSeed in s.issued && t in s.placedUnder && s.placedUnder[t] <= s.count)
    && (forall t, u :: t in s.playing && u in s.playing ==>
          (s.playing[t].serverSeed == s.playing[u].serverSeed <==> s.placedUnder[t] == s.placedUnder[u]))
    && (forall t :: t in s.playing && s.record.Some? ==>
          (s.playing[t].serverSeed == s.record.value.serverSeed <==> s.placedUnder[t] == s.count))
    && (forall t :: t in s.revealed ==> s.revealed[t].serverSeed in s.issued)
  }

  /** No revealed server seed is in play: not the stored one, which the next bet will use, nor that of an open bet. */
  ghost predicate Secret(s: System) {
    forall r :: r in s.revealed ==>
      && (s.record.Some? ==> s.revealed[r].serverSeed != s.record.value.serverSeed)
      && (forall t :: t in s.playing ==> s.revealed[r].serverSeed != s.playing[t].serverSeed)
  }

  /** The step settles a bet while another one placed under the same seed is open, or without the rotation that retires its seed. */
  ghost predicate Exposes(s: System, e: Event)
    requires SeedsNumbered(s)
  {
    && e.Settle? && e.tx in s.playing
    && ((exists t :: t in s.playing && t != e.tx && s.placedUnder[t] == s.placedUnder[e.tx])
        || (!e.rotated && s.record.Some? && s.placedUnder[e.tx] == s.count))
  }

  lemma StartIsSecret()
    ensures SeedsNumbered(System(None, map[], map[], map[], 0, {}, 0, map[])) && Secret(System(None, map[], map[], map[], 0, {}, 0, map[]))
  {}

  lemma GetOrCreateKeepsNumbers(hash: string -> string, s: System, drawn: Drawn)
    requires SeedsNumbered(s) && (s.record.None? ==> drawn.serverSeed !in s.issued)
    ensures SeedsNumbered(GetOrCreate(hash, s, drawn))
    ensures Secret(GetOrCreate(hash, s, drawn)) <==> Secret(s)
  {}

  lemma RotateKeepsNumbers(hash: string -> string, s: System, drawn: Drawn, next: string)
    requires SeedsNumbered(s) && next !in s.issued && (s.record.None? ==> drawn.serverSeed !in s.issued && next != drawn.serverSeed)
    ensures SeedsNumbered(Rotate(hash, s, drawn, next))
    ensures Secret(Rotate(hash, s, drawn, next)) <==> Secret(s.(record := None))
  {
    GetOrCreateKeepsNumbers(hash, s, drawn);
  }

  /** The system right after a bet has been revealed, before any rotation. */
  function Settled(hash: string -> string, s: System, tx: TxId): System
    requires tx in s.playing
  {
    s.(revealed := s.revealed[tx := Reveal(hash, s.playing[tx].userSeed, s.playing[tx].serverSeed)], playing := s.playing - {tx})
  }

  lemma RevealKeepsNumbers(hash: string -> string, s: System, tx: TxId)
    requires SeedsNumbered(s) && tx in s.playing
    ensures SeedsNumbered(Settled(hash, s, tx))
  {}

  /** Among the open bets a revealed seed remains exactly with another bet placed under it. */
  lemma OthersStaySecretIff(hash: string -> string, s: System, tx: TxId)
    requires SeedsNumbered(s) && Secret(s) && tx in s.playing
    ensures Secret(Settled(hash, s, tx).(record := None)) <==> !exists t :: t in s.playing && t != tx && s.placedUnder[t] == s.placedUnder[tx]
  {
    var settled := Settled(hash, s, tx);
    assert settled.revealed[tx].serverSeed == s.playing[tx].serverSeed;
    if t :| t in s.playing && t != tx && s.placedUnder[t] == s.placedUnder[tx] {
      assert t in settled.playing && settled.playing[t].serverSeed == s.playing[tx].serverSeed;
    }
  }

  /** The stored record stays secret exactly when the bet was placed under an earlier seed. */
  lemma RecordStaysSecretIff(hash: string -> string, s: System, tx: TxId)
    requires SeedsNumbered(s) && Secret(s) && tx in s.playing
    ensures Secret(Settled(hash, s, tx)) <==>
            Secret(Settled(hash, s, tx).(record := None)) && !(s.record.Some? && s.placedUnder[tx] == s.count)
  {
    assert Settled(hash, s, tx).revealed[tx].serverSeed == s.playing[tx].serverSeed;
  }

  lemma AddBetKeepsNumbers(s: System, tx: TxId, committed: map<TxId, Commitment>)
    requires SeedsNumbered(s) && s.record.Some?
    ensures var s' := s.(playing := s.playing[tx := s.record.value], committed := committed, placedUnder := s.placedUnder[tx := s.count]);
            SeedsNumbered(s') && (Secret(s) ==> Secret(s'))
  {}

  lemma PlaceStaysSecret(hash: string -> string, s: System, tx: TxId, drawn: Drawn)
    requires SeedsNumbered(s) && Secret(s) && NewSeeds(s, PlaceBet(tx, drawn))
    ensures SeedsNumbered(Next(hash, s, PlaceBet(tx, drawn))) && Secret(Next(hash, s, PlaceBet(tx, drawn)))
  {
    GetOrCreateKeepsNumbers(hash, s, drawn);
    AddBetKeepsNumbers(GetOrCreate(hash, s, drawn), tx, Next(hash, s, PlaceBet(tx, drawn)).committed);
  }

  lemma SettleIsSecretIff(hash: string -> string, s: System, e: Event)
    requires SeedsNumbered(s) && Secret(s) && NewSeeds(s, e) && e.Settle? && e.tx in s.playing
    ensures SeedsNumbered(Next(hash, s, e))
    ensures Secret(Next(hash, s, e)) <==> !Exposes(s, e)
  {
    RevealKeepsNumbers(hash, s, e.tx);
    OthersStaySecretIff(hash, s, e.tx);
    RecordStaysSecretIff(hash, s, e.tx);
    if e.rotated {
      RotateKeepsNumbers(hash, Settled(hash, s, e.tx), e.drawn, e.next);
    }
  }

  lemma SetSeedStaysSecret(hash: string -> string, s: System, userSeed: string, drawn: Drawn)
    requires SeedsNumbered(s) && Secret(s) && NewSeeds(s, SetUserSeed(userSeed, drawn))
    ensures SeedsNumbered(Next(hash, s, SetUserSeed(userSeed, drawn))) && Secret(Next(hash, s, SetUserSeed(userSeed, drawn)))
  {
    if IsUserSeed(userSeed) {
      GetOrCreateKeepsNumbers(hash, s, drawn);
    }
  }

  /** A step brings a revealed seed into play, or leaves one there, exactly when it exposes one in the sense above. */
  lemma StepIsSecretIff(hash: string -> string, s: System, e: Event)
    requires SeedsNumbered(s) && Secret(s) && NewSeeds(s, e)
    ensures SeedsNumbered(Next(hash, s, e))
    ensures Secret(Next(hash, s, e)) <==> !Exposes(s, e)
  {
    match e
    case PlaceBet(tx, drawn) => PlaceStaysSecret(hash, s, tx, drawn);
    case Settle(tx, _, _, _) => if tx in s.playing { SettleIsSecretIff(hash, s, e); }
    case SetUserSeed(userSeed, drawn) => SetSeedStaysSecret(hash, s, userSeed, drawn);
    case GetSeeds(drawn) => GetOrCreateKeepsNumbers(hash, s, drawn);
    case _ =>
  }

  ghost predicate SecretThroughout(hash: string -> string, s: System, es: seq<Event>)
    decreases |es|
  {
    Secret(s) && (es == [] || SecretThroughout(hash, Next(hash, s, es[0]), es[1..]))
  }

  ghost predicate NeverExposes(hash: string -> string, s: System, es: seq<Event>)
    decreases |es|
  {
    es == [] || (SeedsNumbered(s) && !Exposes(s, es[0]) && NeverExposes(hash, Next(hash, s, es[0]), es[1..]))
  }

  /** Over every run no revealed seed is ever in play exactly when every settled bet is the last one open under its seed and retires it. */
  lemma {:induction false} RunIsSecretIff(hash: string -> string, s: System, es: seq<Event>)
    requires SeedsNumbered(s) && Secret(s) && NewSeedsRun(hash, s, es)
    ensures SecretThroughout(hash, s, es) <==> NeverExposes(hash, s, es)
    decreases |es|
  {
    if es != [] {
      StepIsSecretIff(hash, s, es[0]);
      if Secret(Next(hash, s, es[0])) {
        RunIsSecretIff(hash, Next(hash, s, es[0]), es[1..]);
      }
    }
  }

  /** Two open bets of one user, in two games: settling the first reveals the seed the second is still played under. */
  lemma SecondBetIsExposed(hash: string -> string, drawn: Drawn, next: string)
    ensures var start := System(None, map[], map[], map[], 0, {}, 0, map[]);
            var s := Next(hash, Next(hash, Next(hash, start, PlaceBet(1, drawn)), PlaceBet(2, drawn)), Settle(1, drawn, true, next));
            1 in s.revealed && 2 in s.playing && s.revealed[1].serverSeed == s.playing[2].serverSeed == drawn.serverSeed
  {}
}
