/** Which of the process-wide write locks guards an inode. */
module WriteLock {
  const TWO64: nat := 0x1_0000_0000_0000_0000

  /** The device's share of the mix. */
  function DeviceHalf(dev: bv64): bv64 {
    var hi := dev * 0xD1B5_4A32_D192_ED03;
    (hi << 32) | (hi >> 32)
  }

  /** The inode's share mixed in, reduced to one of 1024 stripes. */
  function StripeOf(half: bv64, ino: bv64): bv64 {
    ((ino * 0x9E37_79B9_7F4A_7C15) ^ half) % 1024
  }

  /** `stripe_for`. */
  function StripeFor(dev: bv64, ino: bv64): bv64 {
    StripeOf(DeviceHalf(dev), ino)
  }

  lemma StripeIs(half: bv64, a: bv64)
    ensures StripeOf(half, a) == ((a * 0x9E37_79B9_7F4A_7C15) ^ half) % 1024
  {
  }

  /** The factor is odd, so the low bits of the product decide those of the inode. */
  lemma OddFactor(half: bv64, a: bv64, b: bv64)
    ensures ((a * 0x9E37_79B9_7F4A_7C15) ^ half) % 1024 == ((b * 0x9E37_79B9_7F4A_7C15) ^ half) % 1024
       <==> a % 1024 == b % 1024
  {
  }

  lemma LowBitsDecide(s: bv64, t: bv64, half: bv64, a: bv64, b: bv64)
    requires s == ((a * 0x9E37_79B9_7F4A_7C15) ^ half) % 1024
    requires t == ((b * 0x9E37_79B9_7F4A_7C15) ^ half) % 1024
    ensures s == t <==> a % 1024 == b % 1024
  {
    OddFactor(half, a, b);
  }

  /** Two inodes of one device (`half` being its share) get the same stripe exactly when they are
      a multiple of 1024 apart: 1024 neighbouring inodes never wait for each other. */
  lemma {:induction false} SharedStripeIff(half: bv64, a: bv64, b: bv64)
    ensures StripeOf(half, a) == StripeOf(half, b) <==> a % 1024 == b % 1024
  {
    hide StripeOf;
    StripeIs(half, a);
    StripeIs(half, b);
    LowBitsDecide(StripeOf(half, a), StripeOf(half, b), half, a, b);
  }

  function Device(key: nat): (d: nat)
    ensures d < TWO64
  {
    key / TWO64 % TWO64
  }

  function Inode(key: nat): (i: nat)
    ensures i < TWO64
  {
    key % TWO64
  }

  function Word(n: nat): bv64
    requires n < TWO64
  {
    n as bv64
  }

  /** The lock of an inode key `dev << 64 | ino`. */
  function LockOf(key: nat): nat {
    StripeFor(Word(Device(key)), Word(Inode(key))) as nat
  }

  /** The last ten bits. */
  function LowBits(a: bv64): bv64 {
    a % 1024
  }

  predicate Guards(stripe: bv64, key: nat) {
    LockOf(key) == stripe as nat
  }

  function KeyOf(dev: nat, ino: nat): nat {
    dev * TWO64 + ino
  }

  lemma KeyHalves(dev: nat, ino: nat)
    requires dev < TWO64 && ino < TWO64
    ensures Device(KeyOf(dev, ino)) == dev && Inode(KeyOf(dev, ino)) == ino
  {
  }

  lemma LockIsStripe(dev: nat, ino: nat)
    requires dev < TWO64 && ino < TWO64
    ensures Guards(StripeFor(Word(dev), Word(ino)), KeyOf(dev, ino))
  {
    hide StripeFor, Device, Inode, KeyOf, Word;
    KeyHalves(dev, ino);
  }

  lemma WordBack(a: bv64)
    ensures a as nat < TWO64 && (a as nat) as bv64 == a
  {
  }

  lemma SameNumber(a: bv64, b: bv64)
    ensures a as nat == b as nat <==> a == b
  {
    WordBack(a);
    WordBack(b);
  }

  lemma SharedStripes(dev: bv64, a: bv64, b: bv64)
    ensures StripeFor(dev, a) == StripeFor(dev, b) <==> a % 1024 == b % 1024
  {
    hide StripeOf, DeviceHalf;
    SharedStripeIff(DeviceHalf(dev), a, b);
  }

  lemma LocksEqualIff(key: nat, other: nat, dev: bv64, a: bv64, b: bv64)
    requires Guards(StripeFor(dev, a), key) && Guards(StripeFor(dev, b), other)
    ensures LockOf(key) == LockOf(other) <==> LowBits(a) == LowBits(b)
  {
    hide LockOf, StripeFor;
    SameNumber(StripeFor(dev, a), StripeFor(dev, b));
    SharedStripes(dev, a, b);
  }

  /** Two inodes of one device share a lock exactly when they agree in their last ten bits. */
  lemma {:induction false} SharedLockIff(dev: nat, a: nat, b: nat)
    requires dev < TWO64 && a < TWO64 && b < TWO64
    ensures LockOf(KeyOf(dev, a)) == LockOf(KeyOf(dev, b)) <==> LowBits(Word(a)) == LowBits(Word(b))
  {
    hide LockOf, StripeFor, KeyOf, Word, Guards, LowBits;
    LockIsStripe(dev, a);
    LockIsStripe(dev, b);
    LocksEqualIff(KeyOf(dev, a), KeyOf(dev, b), Word(dev), Word(a), Word(b));
  }
}
