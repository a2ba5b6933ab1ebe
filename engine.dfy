/** The battle engine (`Contract`): the name-to-record store, `mint_nft`,
    and the round-based battle state machine driven only by the classes the
    players report for their own decrypted current power. */
module Engine {
  import opened Fhe
  import opened Players

  /** One player's encrypted stats. */
  datatype PlayerData = PlayerData(totalPl: Ciphertext, playPl: Ciphertext, currentPl: Ciphertext)

  /** Every field of the record is encrypted under `pk`. */
  predicate KeyedBy(d: PlayerData, pk: PublicKey) {
    d.totalPl.key == pk && d.playPl.key == pk && d.currentPl.key == pk
  }

  /** What the store keeps true of every record: its three fields share one
      key, and the total power is never negative. */
  predicate WellFormed(d: PlayerData) {
    KeyedBy(d, d.totalPl.key) && d.totalPl.plain >= 0
  }

  /** The record `mint_nft` creates: total power 50, commitment and
      current power 0, all under the owner's key. */
  function Minted(pk: PublicKey): (d: PlayerData)
    ensures WellFormed(d) && KeyedBy(d, pk)
    ensures d.totalPl.plain == 50 && d.playPl.plain == 0 && d.currentPl.plain == 0
  {
    PlayerData(Encrypt(50, pk), Encrypt(0, pk), Encrypt(0, pk))
  }

  /** How a battle ends.  `Undecided` is also what a round with no Dead side
      yields, and what a battle yields when a player stops supplying
      acceptable input. */
  datatype Outcome = Draw | AliceSurvives | BobSurvives | Undecided

  /** The end-of-round transition, in the source's priority order: Dead is
      looked at before Reborn, and a survivor is any side that is not Dead. */
  function Decide(alice: PlayerState, bob: PlayerState): (o: Outcome)
    ensures o == Draw <==> alice == Dead && bob == Dead
    ensures o == BobSurvives <==> alice == Dead && bob != Dead
    ensures o == AliceSurvives <==> alice != Dead && bob == Dead
    ensures o == Undecided <==> alice != Dead && bob != Dead
  {
    if alice == Dead && bob == Dead then Draw
    else if alice == Dead then BobSurvives
    else if bob == Dead then AliceSurvives
    else Undecided
  }

  /** A side classified Reborn gets its current power reset to its
      commitment; any other side is left as it is. */
  function Revive(d: PlayerData, s: PlayerState): (r: PlayerData)
    requires s == Classify(d.currentPl.plain)
    ensures r.totalPl == d.totalPl && r.playPl == d.playPl
    ensures KeyedBy(d, d.totalPl.key) ==> KeyedBy(r, d.totalPl.key)
    ensures s != Dead && d.playPl.plain > 0 ==> r.currentPl.plain > 0
  {
    if s == Reborn then d.(currentPl := d.playPl) else d
  }

  /** `Contract::level_up`: run the level-up circuit on the survivor's total
      and commitment under the survivor's key. */
  function LevelUpTotal(totalPl: Ciphertext, playPl: Ciphertext, pk: PublicKey): (r: Ciphertext)
    requires totalPl.key == pk && playPl.key == pk
    ensures r.key == pk
    ensures r.plain >= 0 && (r.plain == 0 <==> totalPl.plain == playPl.plain)
  {
    Run(LevelUpProgram, totalPl, playPl, pk)
  }

  /** How the battle loop finishes: its outcome and both local records. */
  datatype BattleEnd = BattleEnd(outcome: Outcome, alice: PlayerData, bob: PlayerData)

  /** Where one pass through the battle loop leaves it: finished, or at the
      top of the next round with both records and the transcript position. */
  datatype Step = Finished(end: BattleEnd) | Next(alice: PlayerData, bob: PlayerData, pos: nat)

  /** What holds at the top of every round: keys are consistent, both
      commitments are positive and both current powers are positive. */
  predicate RoundStart(alice: Player, bob: Player, ad: PlayerData, bd: PlayerData) {
    && alice.Valid() && bob.Valid()
    && KeyedBy(ad, alice.publicKey) && KeyedBy(bd, bob.publicKey)
    && ad.playPl.plain > 0 && bd.playPl.plain > 0
    && ad.currentPl.plain > 0 && bd.currentPl.plain > 0
  }

  /** One damage-circuit run: the recipient's current power minus damage
      encrypted under the recipient's own key. */
  function Strike(d: PlayerData, damage: Ciphertext, pk: PublicKey): (r: PlayerData)
    requires KeyedBy(d, pk) && damage.key == pk
    ensures KeyedBy(r, pk) && r.totalPl == d.totalPl && r.playPl == d.playPl
    ensures r.currentPl.plain == d.currentPl.plain - damage.plain
  {
    d.(currentPl := Run(DealDamageProgram, d.currentPl, damage, pk))
  }

  /** The end of a round, once both sides have been struck: each side
      classifies itself, then the battle ends in a draw, ends with the single
      survivor levelled up, or resets the Reborn sides and goes on from
      `pos`. */
  function Resolve(alice: Player, bob: Player, ad: PlayerData, bd: PlayerData, pos: nat): (r: Step)
    requires alice.Valid() && bob.Valid()
    requires KeyedBy(ad, alice.publicKey) && KeyedBy(bd, bob.publicKey)
    requires ad.playPl.plain > 0 && bd.playPl.plain > 0
    ensures r.Next? ==> r.pos == pos && RoundStart(alice, bob, r.alice, r.bob)
    ensures r.Next? ==> r.alice.totalPl == ad.totalPl && r.bob.totalPl == bd.totalPl
    ensures r.Next? ==> r.alice.playPl == ad.playPl && r.bob.playPl == bd.playPl
  {
    var aliceState := alice.GetState(ad.currentPl);
    var bobState := bob.GetState(bd.currentPl);
    match Decide(aliceState, bobState)
    case Draw => Finished(BattleEnd(Draw, ad, bd))
    case AliceSurvives =>
      Finished(BattleEnd(AliceSurvives, ad.(totalPl := LevelUpTotal(ad.totalPl, ad.playPl, alice.publicKey)), bd))
    case BobSurvives =>
      Finished(BattleEnd(BobSurvives, ad, bd.(totalPl := LevelUpTotal(bd.totalPl, bd.playPl, bob.publicKey))))
    case Undecided =>
      Next(Revive(ad, aliceState), Revive(bd, bobState), pos)
  }

  /** One pass through the battle loop from transcript position `pos`: Alice
      picks a damage against her current power, Bob against his; Alice's is
      encrypted under Bob's key and taken off Bob's power, and the other way
      round; then the round is resolved.  A round that starts with both
      current powers positive hands the next round the same guarantee. */
  function RoundStep(alice: Player, bob: Player, ad: PlayerData, bd: PlayerData, input: seq<int>, pos: nat): (r: Step)
    requires RoundStart(alice, bob, ad, bd)
    requires pos <= |input|
    ensures r.Next? ==> pos < r.pos <= |input| && RoundStart(alice, bob, r.alice, r.bob)
  {
    match Solicit(input[pos..], Decrypt(ad.currentPl, alice.privateKey))
    case Exhausted => Finished(BattleEnd(Undecided, ad, bd))
    case Chosen(aliceDamage, u) =>
      match Solicit(input[pos + u..], Decrypt(bd.currentPl, bob.privateKey))
      case Exhausted => Finished(BattleEnd(Undecided, ad, bd))
      case Chosen(bobDamage, v) =>
        Resolve(alice, bob, Strike(ad, Encrypt(bobDamage, alice.publicKey), alice.publicKey),
                Strike(bd, Encrypt(aliceDamage, bob.publicKey), bob.publicKey), pos + u + v)
  }

  /** The battle loop from the top of a round at position `pos` until a
      round finishes it. */
  function Rounds(alice: Player, bob: Player, ad: PlayerData, bd: PlayerData, input: seq<int>, pos: nat): (f: BattleEnd)
    requires RoundStart(alice, bob, ad, bd)
    requires pos <= |input|
    decreases |input| - pos
  {
    match RoundStep(alice, bob, ad, bd, input, pos)
    case Finished(end) => end
    case Next(ad', bd', pos') => Rounds(alice, bob, ad', bd', input, pos')
  }

  /** The commitment phase of a battle: Alice commits the first typed value
      in `(0, total]` of her total, then Bob of his, each encrypted under the
      committing player's key; each current power starts at its commitment. */
  function Commit(alice: Player, bob: Player, ad: PlayerData, bd: PlayerData, input: seq<int>): (r: Step)
    requires alice.Valid() && bob.Valid()
    requires KeyedBy(ad, alice.publicKey) && KeyedBy(bd, bob.publicKey)
    ensures r.Finished? ==> r.end == BattleEnd(Undecided, ad, bd)
    ensures r.Next? ==> r.pos <= |input| && RoundStart(alice, bob, r.alice, r.bob)
    ensures r.Next? ==> r.alice == ad.(playPl := r.alice.playPl, currentPl := r.alice.playPl)
    ensures r.Next? ==> r.bob == bd.(playPl := r.bob.playPl, currentPl := r.bob.playPl)
    ensures r.Next? <==> Solicit(input, ad.totalPl.plain).Chosen? && Solicit(input[Solicit(input, ad.totalPl.plain).used..], bd.totalPl.plain).Chosen?
    ensures r.Next? ==> r.alice.playPl.plain == Solicit(input, ad.totalPl.plain).value
    ensures r.Next? ==> r.bob.playPl.plain == Solicit(input[Solicit(input, ad.totalPl.plain).used..], bd.totalPl.plain).value
    ensures r.Next? ==> 0 < r.alice.playPl.plain <= ad.totalPl.plain && 0 < r.bob.playPl.plain <= bd.totalPl.plain
  {
    match Solicit(input, Decrypt(ad.totalPl, alice.privateKey))
    case Exhausted => Finished(BattleEnd(Undecided, ad, bd))
    case Chosen(alicePlay, u) =>
      match Solicit(input[u..], Decrypt(bd.totalPl, bob.privateKey))
      case Exhausted => Finished(BattleEnd(Undecided, ad, bd))
      case Chosen(bobPlay, v) =>
        var alicePl := Encrypt(alicePlay, alice.publicKey);
        var bobPl := Encrypt(bobPlay, bob.publicKey);
        Next(ad.(playPl := alicePl, currentPl := alicePl), bd.(playPl := bobPl, currentPl := bobPl), u + v)
  }

  /** A whole battle: the commitment phase, then the rounds. */
  function BattleSpec(alice: Player, bob: Player, ad: PlayerData, bd: PlayerData, input: seq<int>): (f: BattleEnd)
    requires alice.Valid() && bob.Valid()
    requires KeyedBy(ad, alice.publicKey) && KeyedBy(bd, bob.publicKey)
  {
    match Commit(alice, bob, ad, bd, input)
    case Finished(end) => end
    case Next(ad', bd', pos) => Rounds(alice, bob, ad', bd', input, pos)
  }

  /** The body of `battle` on its local copies of the two records: fix both
      commitments, then loop over rounds until one finishes the battle (or
      the transcript runs out). */
  method Fight(alice: Player, bob: Player, aliceStart: PlayerData, bobStart: PlayerData, input: seq<int>)
    returns (f: BattleEnd)
    requires alice.Valid() && bob.Valid()
    requires KeyedBy(aliceStart, alice.publicKey) && KeyedBy(bobStart, bob.publicKey)
    ensures f == BattleSpec(alice, bob, aliceStart, bobStart, input)
  {
    var aliceData, bobData := aliceStart, bobStart;
    var alicePlay := alice.GetPlayPl(aliceData.totalPl, input);
    if alicePlay.Exhausted? {
      return BattleEnd(Undecided, aliceStart, bobStart);
    }
    aliceData := aliceData.(playPl := alicePlay.value);
    aliceData := aliceData.(currentPl := aliceData.playPl);
    var bobPlay := bob.GetPlayPl(bobData.totalPl, input[alicePlay.used..]);
    if bobPlay.Exhausted? {
      return BattleEnd(Undecided, aliceStart, bobStart);
    }
    bobData := bobData.(playPl := bobPlay.value);
    bobData := bobData.(currentPl := bobData.playPl);
    var pos := alicePlay.used + bobPlay.used;
    assert Commit(alice, bob, aliceStart, bobStart, input) == Next(aliceData, bobData, pos);

    while true
      invariant 0 <= pos <= |input|
      invariant RoundStart(alice, bob, aliceData, bobData)
      invariant BattleSpec(alice, bob, aliceStart, bobStart, input) == Rounds(alice, bob, aliceData, bobData, input, pos)
      decreases |input| - pos
    {
      var step := PlayRound(alice, bob, aliceData, bobData, input, pos);
      if step.Finished? {
        return step.end;
      }
      aliceData, bobData, pos := step.alice, step.bob, step.pos;
    }
  }

  /** One pass through the battle loop: both damages, both damage-circuit
      runs, then the end of the round. */
  method PlayRound(alice: Player, bob: Player, aliceData: PlayerData, bobData: PlayerData, input: seq<int>, pos: nat)
    returns (step: Step)
    requires RoundStart(alice, bob, aliceData, bobData)
    requires pos <= |input|
    ensures step == RoundStep(alice, bob, aliceData, bobData, input, pos)
  {
    var aliceDamage := alice.GetDamage(aliceData.currentPl, bob.publicKey, input[pos..]);
    if aliceDamage.Exhausted? {
      return Finished(BattleEnd(Undecided, aliceData, bobData));
    }
    var bobDamage := bob.GetDamage(bobData.currentPl, alice.publicKey, input[pos + aliceDamage.used..]);
    if bobDamage.Exhausted? {
      return Finished(BattleEnd(Undecided, aliceData, bobData));
    }
    var aliceStruck := Strike(aliceData, bobDamage.value, alice.publicKey);
    var bobStruck := Strike(bobData, aliceDamage.value, bob.publicKey);
    step := EndRound(alice, bob, aliceStruck, bobStruck, pos + aliceDamage.used + bobDamage.used);
  }

  /** The end of a round: classify both sides, then stop on a draw or a
      single survivor (levelled up), or reset the Reborn sides and go on. */
  method EndRound(alice: Player, bob: Player, aliceData: PlayerData, bobData: PlayerData, pos: nat)
    returns (step: Step)
    requires alice.Valid() && bob.Valid()
    requires KeyedBy(aliceData, alice.publicKey) && KeyedBy(bobData, bob.publicKey)
    requires aliceData.playPl.plain > 0 && bobData.playPl.plain > 0
    ensures step == Resolve(alice, bob, aliceData, bobData, pos)
  {
    var aliceState := alice.GetState(aliceData.currentPl);
    var bobState := bob.GetState(bobData.currentPl);

    if aliceState == Dead && bobState == Dead {
      return Finished(BattleEnd(Draw, aliceData, bobData));
    } else if aliceState == Dead {
      var bobWinner := bobData.(totalPl := LevelUpTotal(bobData.totalPl, bobData.playPl, bob.publicKey));
      return Finished(BattleEnd(BobSurvives, aliceData, bobWinner));
    } else if bobState == Dead {
      var aliceWinner := aliceData.(totalPl := LevelUpTotal(aliceData.totalPl, aliceData.playPl, alice.publicKey));
      return Finished(BattleEnd(AliceSurvives, aliceWinner, bobData));
    }

    var aliceNext, bobNext := aliceData, bobData;
    if aliceState == Reborn {
      aliceNext := aliceNext.(currentPl := aliceNext.playPl);
    }
    if bobState == Reborn {
      bobNext := bobNext.(currentPl := bobNext.playPl);
    }
    step := Next(aliceNext, bobNext, pos);
  }

  /** The engine: the store of player records keyed by player name. */
  class Contract {
    var playerData: map<string, PlayerData>

    ghost predicate Valid()
      reads this
    {
      forall name :: name in playerData ==> WellFormed(playerData[name])
    }

    constructor ()
      ensures Valid() && playerData == map[]
    {
      playerData := map[];
    }

    /** `mint_nft`: a fresh record for `playerName` under `publicKey`, total
        power 50, commitment and current power 0.  An existing record for
        the same name is silently replaced. */
    method MintNft(publicKey: PublicKey, playerName: string)
      requires Valid()
      modifies this
      ensures Valid()
      ensures playerData == old(playerData)[playerName := Minted(publicKey)]
    {
      playerData := playerData[playerName := Minted(publicKey)];
    }

    /** `battle`: both names must already hold records, encrypted under the
        keys of the players who fight with them.  Only a single survivor's
        record is written back. */
    method Battle(alice: Player, bob: Player, input: seq<int>) returns (outcome: Outcome)
      requires Valid() && alice.Valid() && bob.Valid()
      requires alice.name in playerData && bob.name in playerData
      requires KeyedBy(playerData[alice.name], alice.publicKey)
      requires KeyedBy(playerData[bob.name], bob.publicKey)
      modifies this
      ensures Valid()
      ensures outcome == BattleSpec(alice, bob, old(playerData[alice.name]), old(playerData[bob.name]), input).outcome
      ensures outcome == AliceSurvives ==>
        playerData == old(playerData)[alice.name := BattleSpec(alice, bob, old(playerData[alice.name]), old(playerData[bob.name]), input).alice]
      ensures outcome == BobSurvives ==>
        playerData == old(playerData)[bob.name := BattleSpec(alice, bob, old(playerData[alice.name]), old(playerData[bob.name]), input).bob]
      ensures outcome == Draw || outcome == Undecided ==> playerData == old(playerData)
      ensures outcome == AliceSurvives ==>
        && 0 < playerData[alice.name].playPl.plain <= old(playerData[alice.name]).totalPl.plain
        && playerData[alice.name].totalPl.plain
             == LevelUp(old(playerData[alice.name]).totalPl.plain, playerData[alice.name].playPl.plain)
        && playerData[alice.name].currentPl.plain > 0
      ensures outcome == BobSurvives ==>
        && 0 < playerData[bob.name].playPl.plain <= old(playerData[bob.name]).totalPl.plain
        && playerData[bob.name].totalPl.plain
             == LevelUp(old(playerData[bob.name]).totalPl.plain, playerData[bob.name].playPl.plain)
        && playerData[bob.name].currentPl.plain > 0
    {
      var aliceData := playerData[alice.name];
      var bobData := playerData[bob.name];
      var f := Fight(alice, bob, aliceData, bobData, input);
      BattleEndFacts(alice, bob, aliceData, bobData, input);
      outcome := f.outcome;
      if outcome == AliceSurvives {
        playerData := playerData[alice.name := f.alice];
      } else if outcome == BobSurvives {
        playerData := playerData[bob.name := f.bob];
      }
    }
  }

  /** What a finished run of rounds guarantees, relative to the records
      `ad` and `bd` it started from: keys stay with their owners, the
      commitments are untouched, only a single survivor's total changes (to
      the level-up of its total and commitment), and the reported outcome
      agrees with the final classes. */
  predicate Settled(alice: Player, bob: Player, ad: PlayerData, bd: PlayerData, f: BattleEnd) {
    && KeyedBy(f.alice, alice.publicKey) && KeyedBy(f.bob, bob.publicKey)
    && f.alice.playPl == ad.playPl && f.bob.playPl == bd.playPl
    && f.alice.totalPl == (if f.outcome == AliceSurvives
                           then Encrypt(LevelUp(ad.totalPl.plain, ad.playPl.plain), alice.publicKey)
                           else ad.totalPl)
    && f.bob.totalPl == (if f.outcome == BobSurvives
                         then Encrypt(LevelUp(bd.totalPl.plain, bd.playPl.plain), bob.publicKey)
                         else bd.totalPl)
    && (f.outcome == Draw ==> Classify(f.alice.currentPl.plain) == Dead && Classify(f.bob.currentPl.plain) == Dead)
    && (f.outcome == AliceSurvives ==> Classify(f.alice.currentPl.plain) != Dead && Classify(f.bob.currentPl.plain) == Dead)
    && (f.outcome == BobSurvives ==> Classify(f.alice.currentPl.plain) == Dead && Classify(f.bob.currentPl.plain) != Dead)
  }

  /** Because each damage is at most the dealer's own current power, a draw
      leaves both sides at exactly 0, and a survivor is always Alive. */
  predicate FairEnding(f: BattleEnd) {
    && (f.outcome == Draw ==> f.alice.currentPl.plain == 0 && f.bob.currentPl.plain == 0)
    && (f.outcome == AliceSurvives ==> f.alice.currentPl.plain > 0)
    && (f.outcome == BobSurvives ==> f.bob.currentPl.plain > 0)
  }

  /** One round either hands the next round unchanged totals and
      commitments, or finishes the battle settled and fair. */
  lemma RoundStepEnd(alice: Player, bob: Player, ad: PlayerData, bd: PlayerData, input: seq<int>, pos: nat)
    requires RoundStart(alice, bob, ad, bd)
    requires pos <= |input|
    ensures var r := RoundStep(alice, bob, ad, bd, input, pos);
      && (r.Next? ==> r.alice.totalPl == ad.totalPl && r.bob.totalPl == bd.totalPl)
      && (r.Next? ==> r.alice.playPl == ad.playPl && r.bob.playPl == bd.playPl)
      && (r.Finished? ==> Settled(alice, bob, ad, bd, r.end) && FairEnding(r.end))
  {
    match Solicit(input[pos..], Decrypt(ad.currentPl, alice.privateKey))
    case Exhausted =>
    case Chosen(aliceDamage, u) =>
      match Solicit(input[pos + u..], Decrypt(bd.currentPl, bob.privateKey))
      case Exhausted =>
      case Chosen(bobDamage, v) =>
  }

  lemma {:induction false} RoundsEnd(alice: Player, bob: Player, ad: PlayerData, bd: PlayerData, input: seq<int>, pos: nat)
    requires RoundStart(alice, bob, ad, bd)
    requires pos <= |input|
    ensures Settled(alice, bob, ad, bd, Rounds(alice, bob, ad, bd, input, pos))
    ensures FairEnding(Rounds(alice, bob, ad, bd, input, pos))
    decreases |input| - pos
  {
    RoundStepEnd(alice, bob, ad, bd, input, pos);
    match RoundStep(alice, bob, ad, bd, input, pos)
    case Finished(end) =>
    case Next(ad', bd', pos') =>
      RoundsEnd(alice, bob, ad', bd', input, pos');
  }

  /** A whole battle: the records it hands back are settled against the
      records with both commitments fixed, the ending is fair, a decided
      battle fixed each commitment to the first typed value in range of the
      player's total, and the records stay well formed. */
  lemma BattleEndFacts(alice: Player, bob: Player, ad: PlayerData, bd: PlayerData, input: seq<int>)
    requires alice.Valid() && bob.Valid()
    requires KeyedBy(ad, alice.publicKey) && KeyedBy(bd, bob.publicKey)
    ensures var f := BattleSpec(alice, bob, ad, bd, input);
      && (f.outcome != Undecided ==>
            && f.alice.playPl.plain == Solicit(input, ad.totalPl.plain).value
            && f.bob.playPl.plain == Solicit(input[Solicit(input, ad.totalPl.plain).used..], bd.totalPl.plain).value
            && 0 < f.alice.playPl.plain <= ad.totalPl.plain
            && 0 < f.bob.playPl.plain <= bd.totalPl.plain)
      && Settled(alice, bob, ad.(playPl := f.alice.playPl), bd.(playPl := f.bob.playPl), f)
      && FairEnding(f)
      && (WellFormed(ad) ==> WellFormed(f.alice))
      && (WellFormed(bd) ==> WellFormed(f.bob))
  {
    match Commit(alice, bob, ad, bd, input)
    case Finished(end) =>
    case Next(ad', bd', pos) =>
      RoundsEnd(alice, bob, ad', bd', input, pos);
  }
}
