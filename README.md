# Super-Battle: a model of the encrypted battle engine

Super-Battle is a two-player battle game in which every power level is kept
encrypted under its owner's public key (BFV homomorphic encryption). The
engine (`Contract`) stores one record per player name: a total power, the
commitment for the current battle and the current power. It runs two
arithmetic circuits on ciphertexts:

- `deal_damage` computes `current - damage`.
- `level_up` computes `(total - play)^2`.

Each player decrypts only its own values. Before a battle it commits part
of its total. In each round it picks a damage no larger than its own current
power, and after each round it reports its own class: Alive, Dead or Reborn.

The model has four modules:

- `Fhe` (fhe.dfy). A ciphertext is the plaintext it hides plus the public
  key it was made under. Decryption needs the matching private key.
  Evaluating a circuit needs every argument under the evaluation key, so
  key consistency becomes a proof obligation. Homomorphic correctness is
  the definition of `Run`.
- `Players` (players.dfy). The player-side operations. Their retry loops
  read from a transcript of typed integers.
- `Engine` (engine.dfy). The record store as a class, `mint_nft`, and the
  battle state machine. `Fight` is the imperative battle loop on local
  copies of the two records, proved equal to the specification function
  `BattleSpec`. `Battle` writes the survivor's record back.
- `BattleProperties` (battle_properties.dfy). Whole-battle consequences:
  worked battles between two freshly minted players, and what a survivor
  that committed its whole pool is left with.

Player input is one transcript (`seq<int>`) shared by both players and
consumed in the order the program reads it:

1. Alice's commitment, then Bob's.
2. In each round, Alice's damage, then Bob's.

Each retry loop takes the first entry that passes its range test. If the
transcript runs out first, the battle ends `Undecided` and the store is left
as it was. This bound stands in for the program's unbounded wait for input,
and it makes the battle loop terminate.

Behaviour worth knowing:

- `mint_nft` sets the commitment and the current power to 0, not to the
  total. It silently overwrites an existing record.
- A player with total 0 gets no legal commitment, whichever side it
  fights on. The program keeps prompting forever; the model ends such a
  battle `Undecided` (`EmptyPoolStalls`). A survivor that committed its
  whole total levels up to exactly 0 and is stuck from then on
  (`FullCommitmentExhaustsPool`).
- A draw in which both sides commit 10, deal 20 and end at -10 cannot
  happen: a damage of 20 is refused against a current power of 10
  (`OverreachingDamageIsRefused`). Every draw leaves both sides at exactly
  0 (`FairEnding` in `BattleEndFacts`).

## Model

| member | source | states |
|---|---|---|
| `Fhe.Encrypt` | src/main.rs:214-216 | encryption yields a ciphertext under the key it was asked for |
| `Fhe.DecryptEncrypt` | src/main.rs:194-195 | decrypting with the matching private key gives back the encrypted value |
| `Fhe.DealDamage` | src/main.rs:24-26 | the result plus the damage is the old current power; the result is below the current power exactly when the damage is positive |
| `Fhe.LevelUp` | src/main.rs:29-33 | the new total is never negative and is 0 exactly when the commitment equals the total |
| `Fhe.LevelUpShrinksWithCommitment` | src/main.rs:29-33 | a larger commitment never earns a larger level-up, and no positive commitment earns more than `(total - 1)^2` |
| `Fhe.Run` | src/main.rs:80-88 | a circuit run on two ciphertexts under one key yields a ciphertext under that same key |
| `Fhe.RunIsHomomorphic` | src/main.rs:143-146 | decrypting a circuit run on encryptions gives the circuit applied to the plaintexts |
| `Players.Solicit` | src/main.rs:199-211 | an accepted value passes `0 < x <= max` and is the entry at the consumed position |
| `Players.SolicitIsFirst` | src/main.rs:199-211 | every entry before the accepted one was refused; nothing is accepted exactly when every entry fails the test |
| `Players.NothingFitsBelowOne` | src/main.rs:206 | when the bound is 0 or less, no entry is ever accepted |
| `Players.OneAlwaysFits` | src/main.rs:232 | when the bound is positive, typing 1 is accepted |
| `Players.Prompt` | src/main.rs:225-237 | the retry loop returns the first entry that passes the range test, with how many entries it read |
| `Players.Classify` | src/main.rs:248-254 | below -10 is Reborn, -10 through 0 is Dead, above 0 is Alive |
| `Players.Player.GetPlayPl` | src/main.rs:193-217 | the commitment is the first entry in `(0, total]`, encrypted under the player's own key; none exists exactly when the loop finds none |
| `Players.Player.GetDamage` | src/main.rs:219-242 | the damage is the first entry in `(0, current]`, encrypted under the opponent's key |
| `Players.Player.GetState` | src/main.rs:244-255 | the reported class follows the three thresholds on the decrypted current power |
| `Engine.Minted` | src/main.rs:58-62 | a minted record is well formed under its owner's key, with total 50 and commitment and current power 0 |
| `Engine.Decide` | src/main.rs:103-123 | draw exactly when both are Dead; a single survivor exactly when the other is Dead; the battle goes on exactly when neither is Dead |
| `Engine.Revive` | src/main.rs:125-133 | a Reborn reset keeps total, commitment and keys, and leaves a positive current power whenever the side is not Dead |
| `Engine.LevelUpTotal` | src/main.rs:137-147 | the levelled-up total stays under the survivor's key, is never negative, and is 0 exactly when commitment equals total |
| `Engine.Strike` | src/main.rs:80-98 | a damage run keeps the record under the recipient's key and lowers its current power by exactly the damage |
| `Engine.Resolve` | src/main.rs:100-133 | when the battle goes on, totals and commitments are unchanged and both current powers are positive again |
| `Engine.RoundStep` | src/main.rs:77-133 | a round that starts with both current powers positive consumes input and hands the next round positive current powers under the right keys |
| `Engine.Commit` | src/main.rs:71-74 | the battle starts exactly when both players find a commitment in `(0, total]`; each commitment is the first legal entry from where the previous reading stopped; each current power starts at its commitment |
| `Engine.Fight` | src/main.rs:67-134 | the battle loop on local copies yields exactly `BattleSpec` |
| `Engine.PlayRound` | src/main.rs:77-133 | one pass of the loop yields exactly `RoundStep` |
| `Engine.EndRound` | src/main.rs:100-133 | the end-of-round if-chain yields exactly `Resolve` |
| `Engine.Contract.constructor` | src/main.rs:45-50 | the store starts empty |
| `Engine.Contract.MintNft` | src/main.rs:57-65 | the name maps to a fresh minted record; any previous record for it is replaced; other names are untouched |
| `Engine.Contract.Battle` | src/main.rs:67-135 | only a single survivor's record is written back, with its commitment in `(0, old total]`, its total levelled up and a positive current power; a draw or undecided battle leaves the store unchanged |
| `Engine.RoundStepEnd` | src/main.rs:77-133 | a round either keeps totals and commitments for the next round or ends the battle settled and fair |
| `Engine.RoundsEnd` | src/main.rs:76-134 | the battle loop ends with only the survivor's total changed to its level-up, outcome matching the classes, a draw at exactly 0 and a survivor Alive |
| `Engine.BattleEndFacts` | src/main.rs:67-135 | a decided battle committed Alice's first legal entry and then Bob's first legal entry after it; the records stay keyed and well formed; the ending is settled and fair |
| `BattleProperties.SoleSurvivorLevelsUp` | src/main.rs:116-122 | commitments 30/20 and damages 25/15 leave Alice the survivor with total 400 and Bob's total at 50 |
| `BattleProperties.MutualDefeatIsDraw` | src/main.rs:103-105 | commitments 10/10 and damages 10/10 end in a draw |
| `BattleProperties.OverreachingDamageIsRefused` | src/main.rs:232 | with commitments 10/10, damages of 20 are refused and no strike happens |
| `BattleProperties.RefusedEntriesAreSkipped` | src/main.rs:206-210 | entries over the bound or at 0 are skipped without changing the battle |
| `BattleProperties.RebornThenDefeated` | src/main.rs:125-128 | Alice falls to -15, is Reborn at her commitment, and is then defeated; Bob's total becomes 100 |
| `BattleProperties.EmptyPoolStalls` | src/main.rs:71-74 | a record with total 0 or less, on either side, stops the battle in the commitment phase |
| `BattleProperties.NoCommitmentIffEmptyPool` | src/main.rs:206 | a stored record (total never negative) admits no commitment for any input exactly when its total is 0 |
| `BattleProperties.FullCommitmentExhaustsPool` | src/main.rs:106-122 | a survivor, Alice or Bob, that committed its whole total levels up to 0, and every later battle it enters in the same position stalls |

## Left out

- `prompt_for_int` and stdin (src/main.rs:150-171) are replaced by the typed-integer transcript. Lines that do not parse as integers are not modelled, since the program only skips them.
- The program waits forever for acceptable input. The model ends the battle `Undecided` when the transcript runs out, and it leaves the store unchanged.
- `Engine.Fight`: the program's battle loop need not terminate. The model's loop is bounded by the transcript, and every round consumes at least two entries.
- All `println!` output is display only and is not modelled.
- The Sunscreen library internals are not modelled: `Compiler`, `Runtime::new`, key generation, parameter sharing, `get_params` and the noise budget. Ciphertexts are abstracted as (plaintext, key) pairs.
- BFV `Signed` plaintext wrap-around and the `i64` conversions are not modelled. Arithmetic uses unbounded integers.
- `unwrap()` panics on runtime failures are not modelled. Every runtime call is taken to succeed.
- `Engine.Contract.Battle` requires each stored record to be encrypted under the key of the player who fights with it. The program assumes this, since records are minted with their owner's key; its `unwrap()` on a missing name is the other precondition.
- The endless `main` replay loop and player construction (src/main.rs:181-191, 265-277) are process plumbing and are not modelled.
- The "ZKP" comments describe no implemented proof, so there is nothing to model.
