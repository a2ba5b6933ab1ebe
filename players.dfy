/** The player side of the protocol: each player holds a key pair, decrypts
    its own values locally, picks a commitment or a damage value that passes
    a range test, and classifies its own current power.

    The terminal prompt is replaced by a transcript of the integers the
    player types, in order.  A retry loop consumes entries until one passes
    the range test; if the transcript runs out first, the choice is
    `Exhausted` (the program itself would keep prompting forever). */
module Players {
  import opened Fhe

  datatype PlayerState = Alive | Dead | Reborn

  /** The outcome of a retry loop: the accepted value and how many
      transcript entries were consumed to reach it, or no acceptable entry. */
  datatype Reply<T> = Chosen(value: T, used: nat) | Exhausted

  /** The acceptance test of both retry loops. */
  predicate InRange(x: int, max: int) {
    0 < x && x <= max
  }

  /** The value a retry loop settles on: the first entry of `input` that
      passes the range test (see `SolicitIsFirst`), or none. */
  function Solicit(input: seq<int>, max: int): (r: Reply<int>)
    ensures r.Chosen? ==> 0 < r.used <= |input| && r.value == input[r.used - 1]
    ensures r.Chosen? ==> InRange(r.value, max)
    decreases |input|
  {
    if |input| == 0 then Exhausted
    else if InRange(input[0], max) then Chosen(input[0], 1)
    else match Solicit(input[1..], max)
      case Chosen(v, u) => Chosen(v, u + 1)
      case Exhausted => Exhausted
  }

  /** Every entry before the accepted one was rejected, and the loop comes
      up empty exactly when no entry passes the test. */
  lemma {:induction false} SolicitIsFirst(input: seq<int>, max: int)
    ensures Solicit(input, max).Chosen? ==>
      forall j :: 0 <= j < Solicit(input, max).used - 1 ==> !InRange(input[j], max)
    ensures Solicit(input, max).Exhausted? <==> forall j :: 0 <= j < |input| ==> !InRange(input[j], max)
    decreases |input|
  {
    if |input| > 0 && !InRange(input[0], max) {
      SolicitIsFirst(input[1..], max);
      forall j | 1 <= j < |input|
        ensures input[j] == input[1..][j - 1]
      {
      }
    }
  }

  /** When the bound is not positive no entry can ever be accepted. */
  lemma NothingFitsBelowOne(input: seq<int>, max: int)
    requires max <= 0
    ensures Solicit(input, max) == Exhausted
  {
    SolicitIsFirst(input, max);
  }

  /** When the bound is positive, typing 1 is always accepted. */
  lemma OneAlwaysFits(input: seq<int>, max: int)
    requires max > 0
    ensures Solicit(input + [1], max).Chosen?
  {
    assert InRange((input + [1])[|input|], max);
    SolicitIsFirst(input + [1], max);
  }

  /** The retry loop shared by `get_play_pl` and `get_damage`: read entries
      until one satisfies `0 < x <= max`. */
  method Prompt(input: seq<int>, max: int) returns (r: Reply<int>)
    ensures r == Solicit(input, max)
  {
    var i := 0;
    while i < |input|
      invariant 0 <= i <= |input|
      invariant forall j :: 0 <= j < i ==> !InRange(input[j], max)
    {
      if InRange(input[i], max) {
        r := Chosen(input[i], i + 1);
        SolicitIsFirst(input, max);
        return;
      }
      i := i + 1;
    }
    r := Exhausted;
    SolicitIsFirst(input, max);
  }

  /** Classification of a plaintext current power against the thresholds. */
  function Classify(v: int): (s: PlayerState)
    ensures s == Reborn <==> v < -10
    ensures s == Dead <==> -10 <= v <= 0
    ensures s == Alive <==> 0 < v
  {
    if v < -10 then Reborn
    else if v <= 0 then Dead
    else Alive
  }

  datatype Player = Player(name: string, publicKey: PublicKey, privateKey: PrivateKey) {

    /** The player holds both halves of one key pair. */
    predicate Valid() {
      Unlocks(privateKey, publicKey)
    }

    /** `get_play_pl`: decrypt the total locally, take the first typed value
        in `(0, total]`, and encrypt it under the player's own key. */
    method GetPlayPl(totalPl: Ciphertext, input: seq<int>) returns (r: Reply<Ciphertext>)
      requires Valid() && totalPl.key == publicKey
      ensures r.Chosen? <==> Solicit(input, totalPl.plain).Chosen?
      ensures r.Chosen? ==> r.used == Solicit(input, totalPl.plain).used <= |input|
      ensures r.Chosen? ==> r.value == Encrypt(Solicit(input, totalPl.plain).value, publicKey)
      ensures r.Chosen? ==> r.value.key == publicKey && 0 < r.value.plain <= totalPl.plain
    {
      var total := Decrypt(totalPl, privateKey);
      var play := Prompt(input, total);
      r := if play.Chosen? then Chosen(Encrypt(play.value, publicKey), play.used) else Exhausted;
    }

    /** `get_damage`: decrypt the current power locally, take the first typed
        value in `(0, current]`, and encrypt it under the opponent's key. */
    method GetDamage(currentPl: Ciphertext, opponentKey: PublicKey, input: seq<int>) returns (r: Reply<Ciphertext>)
      requires Valid() && currentPl.key == publicKey
      ensures r.Chosen? <==> Solicit(input, currentPl.plain).Chosen?
      ensures r.Chosen? ==> r.used == Solicit(input, currentPl.plain).used <= |input|
      ensures r.Chosen? ==> r.value == Encrypt(Solicit(input, currentPl.plain).value, opponentKey)
      ensures r.Chosen? ==> r.value.key == opponentKey && 0 < r.value.plain <= currentPl.plain
    {
      var current := Decrypt(currentPl, privateKey);
      var damage := Prompt(input, current);
      r := if damage.Chosen? then Chosen(Encrypt(damage.value, opponentKey), damage.used) else Exhausted;
    }

    /** `get_state`: the player decrypts its own current power and reports
        only its class. */
    function GetState(currentPl: Ciphertext): (s: PlayerState)
      requires Valid() && currentPl.key == publicKey
      ensures s == Reborn <==> currentPl.plain < -10
      ensures s == Dead <==> -10 <= currentPl.plain <= 0
      ensures s == Alive <==> 0 < currentPl.plain
    {
      Classify(Decrypt(currentPl, privateKey))
    }
  }
}
