/** Consequences of the battle rules over whole battles: worked battles
    between two freshly minted players, and what a survivor that committed
    its whole pool is left with. */
module BattleProperties {
  import opened Fhe
  import opened Players
  import opened Engine

  const Alice := Player("Alice", PublicKey(1), PrivateKey(1))
  const Bob := Player("Bob", PublicKey(2), PrivateKey(2))

  /** Alice commits 30 and Bob 20; Alice deals 25 and Bob 15.  Bob ends at
      -5 (Dead), Alice at 15 (Alive), and Alice's total becomes
      (50 - 30) * (50 - 30). */
  lemma SoleSurvivorLevelsUp()
    ensures BattleSpec(Alice, Bob, Minted(Alice.publicKey), Minted(Bob.publicKey), [30, 20, 25, 15])
         == BattleEnd(AliceSurvives,
                      PlayerData(Encrypt(400, Alice.publicKey), Encrypt(30, Alice.publicKey), Encrypt(15, Alice.publicKey)),
                      PlayerData(Encrypt(50, Bob.publicKey), Encrypt(20, Bob.publicKey), Encrypt(-5, Bob.publicKey)))
  {
  }

  /** Both commit 10 and both deal 10: both end at exactly 0 and the battle
      is a draw that levels nobody up. */
  lemma MutualDefeatIsDraw()
    ensures BattleSpec(Alice, Bob, Minted(Alice.publicKey), Minted(Bob.publicKey), [10, 10, 10, 10]).outcome == Draw
  {
  }

  /** Both commit 10 and both type 20: a damage of 20 is over each
      player's current power of 10, so both are refused and the battle never
      reaches a strike.  More generally a draw leaves both sides at exactly
      0 (`FairEnding`): a damage never exceeds its dealer's current power. */
  lemma OverreachingDamageIsRefused()
    ensures BattleSpec(Alice, Bob, Minted(Alice.publicKey), Minted(Bob.publicKey), [10, 10, 20, 20]).outcome == Undecided
  {
  }

  /** Out-of-range entries are skipped: Alice's 60 (over her total) and 0
      are refused before her 30 is taken, and Bob's 25 (over his current
      power 20) before his 15. */
  lemma RefusedEntriesAreSkipped()
    ensures BattleSpec(Alice, Bob, Minted(Alice.publicKey), Minted(Bob.publicKey), [60, 0, 30, 20, 25, 25, 15])
         == BattleSpec(Alice, Bob, Minted(Alice.publicKey), Minted(Bob.publicKey), [30, 20, 25, 15])
  {
  }

  /** Alice commits 5 and Bob 40.  In the first round Bob deals 20, so
      Alice falls to -15 and is Reborn at 5 while Bob is at 35; in the
      second both deal 5, Alice is Dead at 0 and Bob survives at 30 with
      total (50 - 40) * (50 - 40). */
  lemma RebornThenDefeated()
    ensures BattleSpec(Alice, Bob, Minted(Alice.publicKey), Minted(Bob.publicKey), [5, 40, 5, 20, 5, 5])
         == BattleEnd(BobSurvives,
                      PlayerData(Encrypt(50, Alice.publicKey), Encrypt(5, Alice.publicKey), Encrypt(0, Alice.publicKey)),
                      PlayerData(Encrypt(100, Bob.publicKey), Encrypt(40, Bob.publicKey), Encrypt(30, Bob.publicKey)))
  {
  }

  /** A record whose total is not positive admits no commitment: whichever
      side holds it, the battle never gets past the commitment phase,
      whatever is typed. */
  lemma EmptyPoolStalls(alice: Player, bob: Player, ad: PlayerData, bd: PlayerData, input: seq<int>)
    requires alice.Valid() && bob.Valid()
    requires KeyedBy(ad, alice.publicKey) && KeyedBy(bd, bob.publicKey)
    requires ad.totalPl.plain <= 0 || bd.totalPl.plain <= 0
    ensures BattleSpec(alice, bob, ad, bd, input) == BattleEnd(Undecided, ad, bd)
  {
    if ad.totalPl.plain <= 0 {
      NothingFitsBelowOne(input, ad.totalPl.plain);
    } else {
      match Solicit(input, ad.totalPl.plain)
      case Exhausted =>
      case Chosen(_, u) => NothingFitsBelowOne(input[u..], bd.totalPl.plain);
    }
  }

  /** A well-formed record (total never negative) admits no commitment
      exactly when its total is 0: otherwise typing 1 is always accepted. */
  lemma NoCommitmentIffEmptyPool(d: PlayerData)
    requires WellFormed(d)
    ensures d.totalPl.plain == 0 <==> forall input :: Solicit(input, d.totalPl.plain) == Exhausted
  {
    if d.totalPl.plain == 0 {
      forall input
        ensures Solicit(input, d.totalPl.plain) == Exhausted
      {
        NothingFitsBelowOne(input, d.totalPl.plain);
      }
    } else {
      OneAlwaysFits([], d.totalPl.plain);
      assert [] + [1] == [1];
    }
  }

  /** A survivor that committed its whole total levels up to 0, and from
      then on every battle it enters, in the same position and against any
      record of its opponent, stalls in the commitment phase. */
  lemma FullCommitmentExhaustsPool(alice: Player, bob: Player, ad: PlayerData, bd: PlayerData,
                                   input: seq<int>, ad': PlayerData, bd': PlayerData, next: seq<int>)
    requires alice.Valid() && bob.Valid()
    requires KeyedBy(ad, alice.publicKey) && KeyedBy(bd, bob.publicKey)
    requires KeyedBy(ad', alice.publicKey) && KeyedBy(bd', bob.publicKey)
    ensures var f := BattleSpec(alice, bob, ad, bd, input);
      f.outcome == AliceSurvives && f.alice.playPl.plain == ad.totalPl.plain ==>
        && f.alice.totalPl.plain == 0
        && KeyedBy(f.alice, alice.publicKey)
        && BattleSpec(alice, bob, f.alice, bd', next) == BattleEnd(Undecided, f.alice, bd')
    ensures var f := BattleSpec(alice, bob, ad, bd, input);
      f.outcome == BobSurvives && f.bob.playPl.plain == bd.totalPl.plain ==>
        && f.bob.totalPl.plain == 0
        && KeyedBy(f.bob, bob.publicKey)
        && BattleSpec(alice, bob, ad', f.bob, next) == BattleEnd(Undecided, ad', f.bob)
  {
    BattleEndFacts(alice, bob, ad, bd, input);
    var f := BattleSpec(alice, bob, ad, bd, input);
    if f.outcome == AliceSurvives && f.alice.playPl.plain == ad.totalPl.plain {
      EmptyPoolStalls(alice, bob, f.alice, bd', next);
    }
    if f.outcome == BobSurvives && f.bob.playPl.plain == bd.totalPl.plain {
      EmptyPoolStalls(alice, bob, ad', f.bob, next);
    }
  }
}
