/** The homomorphic-encryption runtime the battle engine relies on, seen only
    through its interface, and the two arithmetic circuits compiled for it.

    A ciphertext is abstracted as the plaintext it hides together with the
    public key it was produced under.  Decryption needs the private half of
    that key, and evaluating a circuit needs every argument to be encrypted
    under the key the evaluation is run with: those two preconditions are
    where key consistency becomes a proof obligation for the engine.
    Homomorphic correctness is taken as the definition of `Run`. */
module Fhe {

  datatype PublicKey = PublicKey(id: nat)
  datatype PrivateKey = PrivateKey(id: nat)

  /** `sk` is the private half of the key pair whose public half is `pk`. */
  predicate Unlocks(sk: PrivateKey, pk: PublicKey) {
    sk.id == pk.id
  }

  datatype Ciphertext = Ciphertext(plain: int, key: PublicKey)

  function Encrypt(x: int, pk: PublicKey): (c: Ciphertext)
    ensures c.key == pk
  {
    Ciphertext(x, pk)
  }

  function Decrypt(c: Ciphertext, sk: PrivateKey): int
    requires Unlocks(sk, c.key)
  {
    c.plain
  }

  lemma DecryptEncrypt(x: int, pk: PublicKey, sk: PrivateKey)
    requires Unlocks(sk, pk)
    ensures Decrypt(Encrypt(x, pk), sk) == x
  {
  }

  /** The `deal_damage` circuit: the recipient's current power minus the
      damage it takes.  No bound is applied; a negative result is the signal
      that classification reads. */
  function DealDamage(current: int, damage: int): (r: int)
    ensures r + damage == current
    ensures r < current <==> damage > 0
  {
    current - damage
  }

  /** The `level_up` circuit: the square of what the player held back. */
  function LevelUp(total: int, play: int): (r: int)
    ensures r >= 0
    ensures r == 0 <==> total == play
  {
    var bet := total - play;
    SquareSign(bet);
    bet * bet
  }

  lemma SquareSign(x: int)
    ensures x * x >= 0
    ensures x * x == 0 <==> x == 0
  {
    if x < 0 {
      assert x * x == (-x) * (-x);
    }
  }

  lemma SquareMonotonic(x: int, y: int)
    requires 0 <= x <= y
    ensures x * x <= y * y
  {
    assert x * x <= x * y;
    assert x * y <= y * y;
  }

  /** Committing more of the pool never earns a larger level-up: the growth
      shrinks as the commitment approaches the total. */
  lemma LevelUpShrinksWithCommitment(total: int, play: int, larger: int)
    requires 0 < play <= larger <= total
    ensures 0 <= LevelUp(total, larger) <= LevelUp(total, play) <= (total - 1) * (total - 1)
  {
    SquareMonotonic(total - larger, total - play);
    SquareMonotonic(total - play, total - 1);
  }

  datatype Circuit = DealDamageProgram | LevelUpProgram

  /** What a circuit computes on plaintexts. */
  function Eval(p: Circuit, a: int, b: int): int {
    match p
    case DealDamageProgram => DealDamage(a, b)
    case LevelUpProgram => LevelUp(a, b)
  }

  /** `Runtime::run`: evaluates a compiled circuit on two ciphertexts
      encrypted under `pk`, producing a ciphertext under `pk`. */
  function Run(p: Circuit, a: Ciphertext, b: Ciphertext, pk: PublicKey): (r: Ciphertext)
    requires a.key == pk && b.key == pk
    ensures r.key == pk
  {
    Ciphertext(Eval(p, a.plain, b.plain), pk)
  }

  lemma RunIsHomomorphic(p: Circuit, x: int, y: int, pk: PublicKey, sk: PrivateKey)
    requires Unlocks(sk, pk)
    ensures Decrypt(Run(p, Encrypt(x, pk), Encrypt(y, pk), pk), sk) == Eval(p, x, y)
  {
  }
}
