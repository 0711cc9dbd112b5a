/**
 The shard function of the pin table: `splitmix64` over 64-bit addresses and the low-byte mask.

 Main results: `splitmix64` is a bijection (an explicit inverse undoes it in both directions), and the
 sharding is exactly balanced (each of the 256 shards is the image of exactly 2^56 of the 2^64 addresses).
 */
module SplitMix {

  type Word = bv64

  const SHARDING_SIZE: nat := 256

  // The steps of splitmix64. Machine words wrap around, as `uintptr` does on the 64-bit targets.

  function Xorshift30(x: Word): Word { x ^ (x >> 30) }
  function Xorshift27(x: Word): Word { x ^ (x >> 27) }
  function Xorshift31(x: Word): Word { x ^ (x >> 31) }
  function Multiply1(x: Word): Word { x * 0xbf58476d1ce4e5b9 }
  function Multiply2(x: Word): Word { x * 0x94d049bb133111eb }
  function AddGamma(x: Word): Word { x + 0x9e3779b97f4a7c15 }

  function SplitMix64(key: Word): Word {
    Xorshift31(Multiply2(Xorshift27(Multiply1(Xorshift30(AddGamma(key))))))
  }

  function ShardingKey(key: Word): Word {
    SplitMix64(key) & 0xff
  }

  /** A `uintptr`: the 64 bits of an address. */
  datatype Address = Address(bits: Word)

  const NIL := Address(0)

  /** The shard of an address as an index into the 256 lists. */
  function ShardIndex(addr: Address): (index: nat)
    ensures index < SHARDING_SIZE
  {
    LowByte(ShardingKey(addr.bits)) as nat
  }

  function LowByte(x: Word): bv8 {
    (x & 0xff) as bv8
  }

  // The inverse of each step, and of the whole.

  function Unxorshift30(y: Word): Word { y ^ (y >> 30) ^ (y >> 60) }
  function Unxorshift27(y: Word): Word { y ^ (y >> 27) ^ (y >> 54) }
  function Unxorshift31(y: Word): Word { y ^ (y >> 31) ^ (y >> 62) }
  function Divide1(y: Word): Word { y * 0x96de1b173f119089 }
  function Divide2(y: Word): Word { y * 0x319642b2d24d8ec3 }
  function SubtractGamma(y: Word): Word { y - 0x9e3779b97f4a7c15 }

  function Unmix(hash: Word): Word {
    SubtractGamma(Unxorshift30(Divide1(Unxorshift27(Divide2(Unxorshift31(hash))))))
  }

  lemma StepsUndone(x: Word)
    ensures Unxorshift30(Xorshift30(x)) == x && Xorshift30(Unxorshift30(x)) == x
    ensures Unxorshift27(Xorshift27(x)) == x && Xorshift27(Unxorshift27(x)) == x
    ensures Unxorshift31(Xorshift31(x)) == x && Xorshift31(Unxorshift31(x)) == x
  {
    assert Unxorshift30(x ^ (x >> 30)) == x && Xorshift30(x ^ (x >> 30) ^ (x >> 60)) == x;
    assert Unxorshift27(x ^ (x >> 27)) == x && Xorshift27(x ^ (x >> 27) ^ (x >> 54)) == x;
    assert Unxorshift31(x ^ (x >> 31)) == x && Xorshift31(x ^ (x >> 31) ^ (x >> 62)) == x;
  }

  lemma ProductsUndone(x: Word)
    ensures Divide1(Multiply1(x)) == x && Multiply1(Divide1(x)) == x
    ensures Divide2(Multiply2(x)) == x && Multiply2(Divide2(x)) == x
    ensures SubtractGamma(AddGamma(x)) == x && AddGamma(SubtractGamma(x)) == x
  {}

  lemma UnmixMix(key: Word)
    ensures Unmix(SplitMix64(key)) == key
  {
    var a := AddGamma(key);
    var b := Multiply1(Xorshift30(a));
    var c := Multiply2(Xorshift27(b));
    StepsUndone(c);
    ProductsUndone(Xorshift27(b));
    StepsUndone(b);
    ProductsUndone(Xorshift30(a));
    StepsUndone(a);
    ProductsUndone(key);
  }

  lemma MixUnmix(hash: Word)
    ensures SplitMix64(Unmix(hash)) == hash
  {
    var c := Unxorshift31(hash);
    var b := Unxorshift27(Divide2(c));
    var a := Unxorshift30(Divide1(b));
    ProductsUndone(a);
    StepsUndone(Divide1(b));
    ProductsUndone(b);
    StepsUndone(Divide2(c));
    ProductsUndone(c);
    StepsUndone(hash);
  }

  /** `SplitMix64` is a bijection on 64-bit words. */
  lemma Bijection(x: Word, y: Word)
    ensures SplitMix64(x) == y <==> x == Unmix(y)
  {
    UnmixMix(x);
    MixUnmix(y);
  }

  /** Known hashes: of 0, and of the first two multiples of the added constant. */
  lemma KnownHashes()
    ensures SplitMix64(0) == 0xe220a8397b1dcdaf
    ensures SplitMix64(0x9e3779b97f4a7c15) == 0x6e789e6aa1b965f4
    ensures SplitMix64(0x3c6ef372fe94f82a) == 0x06c45d188009454f
    ensures ShardingKey(0) == 0xaf && ShardingKey(0x9e3779b97f4a7c15) == 0xf4
  {}

  // ---------------------------------------------------------------------------
  // Counting 64-bit words
  // ---------------------------------------------------------------------------

  ghost function Image<T, U>(f: T -> U, s: set<T>): set<U> {
    set x | x in s :: f(x)
  }

  lemma {:induction false} ImageSize<T, U>(f: T -> U, s: set<T>)
    requires forall x, y :: x in s && y in s && f(x) == f(y) ==> x == y
    ensures |Image(f, s)| == |s|
  {
    if s == {} {
      assert Image(f, s) == {};
    } else {
      var x :| x in s;
      ImageSize(f, s - {x});
      assert Image(f, s) == Image(f, s - {x}) + {f(x)};
      assert f(x) !in Image(f, s - {x});
    }
  }

  function Even(w: Word): Word { w << 1 }
  function Odd(w: Word): Word { (w << 1) | 1 }
  function Half(w: Word): Word { w >> 1 }

  lemma HalfAdjoint(m: Word, x: Word)
    requires m & (m + 1) == 0
    ensures Half(m) & (Half(m) + 1) == 0
    ensures Half(x) <= Half(m) <==> x <= m || (m == 0 && x == 1)
    ensures m != 0 ==> Half(m) < m
  {}

  lemma HalfInverse(x: Word)
    ensures x == Even(Half(x)) || x == Odd(Half(x))
  {}

  /** The words from 0 to `m`, which has all its set bits at the bottom; one more bit doubles their number. */
  ghost function UpTo(m: Word): set<Word>
    requires m & (m + 1) == 0
  {
    if m == 0 then {0}
    else HalfAdjoint(m, m); Image(Even, UpTo(Half(m))) + Image(Odd, UpTo(Half(m)))
  }

  ghost function Count(m: Word): nat {
    if m == 0 then 1 else 2 * Count(Half(m))
  }

  /** The two ways of growing a word at most `Half(m)` by one bit give back that word when halved. */
  lemma GrowAndHalve(m: Word, w: Word)
    requires w <= Half(m)
    ensures Half(Even(w)) == w == Half(Odd(w)) && Even(w) & 1 == 0 && Odd(w) & 1 == 1
  {}

  lemma GrownBound(m: Word, w: Word, x: Word)
    requires m & (m + 1) == 0 && m != 0 && w <= Half(m)
    requires x == Even(w) || x == Odd(w)
    ensures x <= m
  {}

  lemma GrownFrom(m: Word, x: Word) returns (w: Word)
    requires m & (m + 1) == 0 && m != 0 && x in UpTo(m)
    ensures Half(m) & (Half(m) + 1) == 0 && Half(m) < m
    ensures w in UpTo(Half(m)) && (x == Even(w) || x == Odd(w))
  {
    hide Even, Odd, Half;
    HalfAdjoint(m, m);
    w :| w in UpTo(Half(m)) && (x == Even(w) || x == Odd(w));
  }

  lemma {:induction false} UpToSound(m: Word, x: Word)
    requires m & (m + 1) == 0 && x in UpTo(m)
    ensures x <= m
  {
    if m != 0 {
      hide UpTo, Even, Odd, Half;
      var w := GrownFrom(m, x);
      UpToSound(Half(m), w);
      GrownBound(m, w, x);
    }
  }

  lemma {:induction false} UpToComplete(m: Word, x: Word)
    requires m & (m + 1) == 0 && x <= m
    ensures x in UpTo(m)
  {
    if m != 0 {
      HalfAdjoint(m, x);
      UpToComplete(Half(m), Half(x));
      HalfInverse(x);
    }
  }

  lemma UpToGrows(m: Word)
    requires m & (m + 1) == 0 && m != 0
    ensures Half(m) & (Half(m) + 1) == 0 && Half(m) < m
    ensures UpTo(m) == Image(Even, UpTo(Half(m))) + Image(Odd, UpTo(Half(m)))
    ensures Count(m) == 2 * Count(Half(m))
  {
    hide Even, Odd, Half;
    HalfAdjoint(m, m);
  }

  /** Growing the words of a set by one bit, in the two ways, doubles their number. */
  lemma TwoImages(m: Word, s: set<Word>)
    requires forall w :: w in s ==> w <= Half(m)
    ensures |Image(Even, s) + Image(Odd, s)| == 2 * |s|
  {
    hide Even, Odd, Half;
    forall w | w in s
      ensures Half(Even(w)) == w == Half(Odd(w)) && Even(w) & 1 == 0 && Odd(w) & 1 == 1
    {
      GrowAndHalve(m, w);
    }
    ImageSize(Even, s);
    ImageSize(Odd, s);
    assert Image(Even, s) !! Image(Odd, s);
  }

  lemma {:induction false} UpToSize(m: Word)
    requires m & (m + 1) == 0
    ensures |UpTo(m)| == Count(m)
  {
    if m != 0 {
      hide UpTo, Count, Even, Odd, Half;
      UpToGrows(m);
      var s := UpTo(Half(m));
      UpToSize(Half(m));
      forall w | w in s ensures w <= Half(m) {
        UpToSound(Half(m), w);
      }
      TwoImages(m, s);
    }
  }

  // ---------------------------------------------------------------------------
  // Balance
  // ---------------------------------------------------------------------------

  const LAST_WORD: Word := 0xffff_ffff_ffff_ffff
  const LAST_SHARD: Word := 0xff
  const LAST_SLOT: Word := 0x00ff_ffff_ffff_ffff

  /** The `slot`-th address whose hash ends in the byte `shard`. */
  function KeyOf(shard: Word, slot: Word): Word {
    Unmix((slot << 8) | shard)
  }

  /** The addresses that fall into `shard`, written as the image of the 2^56 slots. */
  ghost function Shard(shard: Word): set<Word> {
    set slot | slot in UpTo(LAST_SLOT) :: KeyOf(shard, slot)
  }

  lemma KeyOfIsInShard(shard: Word, slot: Word)
    requires shard <= LAST_SHARD && slot <= LAST_SLOT
    ensures ShardingKey(KeyOf(shard, slot)) == shard
    ensures SplitMix64(KeyOf(shard, slot)) >> 8 == slot
  {
    MixUnmix((slot << 8) | shard);
  }

  lemma Recombine(hash: Word)
    ensures hash & 0xff <= LAST_SHARD && hash >> 8 <= LAST_SLOT
    ensures ((hash >> 8) << 8) | (hash & 0xff) == hash
  {}

  lemma EveryKeyHasASlot(key: Word)
    ensures ShardingKey(key) <= LAST_SHARD
    ensures SplitMix64(key) >> 8 <= LAST_SLOT
    ensures key == KeyOf(ShardingKey(key), SplitMix64(key) >> 8)
  {
    hide SplitMix64, Unmix;
    UnmixMix(key);
    Recombine(SplitMix64(key));
  }

  lemma CountBits(m: Word, q: Word)
    requires m >= 2 && q == m >> 2
    ensures Count(m) == 4 * Count(q)
  {}

  lemma CountNibble(m: Word, q: Word)
    requires m >= 8 && q == m >> 4
    ensures Count(m) == 16 * Count(q)
  {
    CountBits(m, m >> 2);
    CountBits(m >> 2, q);
  }

  lemma CountByte(m: Word, q: Word)
    requires m >= 0x80 && q == m >> 8
    ensures Count(m) == 256 * Count(q)
  {
    CountNibble(m, m >> 4);
    CountNibble(m >> 4, q);
  }

  lemma PowersOfTwo()
    ensures Count(LAST_SLOT) == 0x0100_0000_0000_0000
    ensures Count(LAST_WORD) == 0x1_0000_0000_0000_0000
  {
    CountByte(0xffffffffffffffff, 0xffffffffffffff);
    CountByte(0xffffffffffffff, 0xffffffffffff);
    CountByte(0xffffffffffff, 0xffffffffff);
    CountByte(0xffffffffff, 0xffffffff);
    CountByte(0xffffffff, 0xffffff);
    CountByte(0xffffff, 0xffff);
    CountByte(0xffff, 0xff);
    CountByte(0xff, 0x0);
  }

  lemma SlotGivesMember(shard: Word, slot: Word)
    requires slot <= LAST_SLOT
    ensures KeyOf(shard, slot) in Shard(shard)
  {
    UpToComplete(LAST_SLOT, slot);
  }

  lemma MemberGivesShard(shard: Word, slot: Word)
    requires shard <= LAST_SHARD && slot in UpTo(LAST_SLOT)
    ensures ShardingKey(KeyOf(shard, slot)) == shard
  {
    UpToSound(LAST_SLOT, slot);
    KeyOfIsInShard(shard, slot);
  }

  /** Every address belongs to the shard its key names, and to no other. */
  lemma ShardMembers(shard: Word, key: Word)
    requires shard <= LAST_SHARD
    ensures key in Shard(shard) <==> ShardingKey(key) == shard
  {
    if key in Shard(shard) {
      var slot :| slot in UpTo(LAST_SLOT) && key == KeyOf(shard, slot);
      MemberGivesShard(shard, slot);
    } else {
      EveryKeyHasASlot(key);
      SlotGivesMember(ShardingKey(key), SplitMix64(key) >> 8);
    }
  }

  lemma KeyOfInjective(shard: Word, x: Word, y: Word)
    requires shard <= LAST_SHARD && x <= LAST_SLOT && y <= LAST_SLOT && KeyOf(shard, x) == KeyOf(shard, y)
    ensures x == y
  {
    hide KeyOf;
    KeyOfIsInShard(shard, x);
    KeyOfIsInShard(shard, y);
  }

  /** Each shard is the image of exactly 2^56 addresses. */
  lemma ShardSize(shard: Word)
    requires shard <= LAST_SHARD
    ensures |Shard(shard)| == 0x0100_0000_0000_0000
  {
    hide UpTo, KeyOf;
    var f := (slot: Word) => KeyOf(shard, slot);
    forall x, y | x in UpTo(LAST_SLOT) && y in UpTo(LAST_SLOT) && f(x) == f(y) ensures x == y {
      UpToSound(LAST_SLOT, x);
      UpToSound(LAST_SLOT, y);
      KeyOfInjective(shard, x, y);
    }
    ImageSize(f, UpTo(LAST_SLOT));
    assert Shard(shard) == Image(f, UpTo(LAST_SLOT));
    UpToSize(LAST_SLOT);
    PowersOfTwo();
  }

  lemma KeyIsByte(key: Word)
    ensures ShardingKey(key) <= LAST_SHARD
  {
    hide SplitMix64;
  }

  lemma LowByteValue(x: Word)
    requires x <= LAST_SHARD
    ensures LowByte(x) as nat == x as nat
  {}

  lemma SameValue(x: Word, y: Word)
    ensures x as nat == y as nat <==> x == y
  {
    if x as nat == y as nat {
      assert x as nat as Word == y as nat as Word;
    }
  }

  /** The index into the 256 lists is the key, read as a number. */
  lemma IndexIsKey(key: Word, shard: Word)
    ensures ShardIndex(Address(key)) == shard as nat <==> ShardingKey(key) == shard
  {
    hide ShardingKey, LowByte;
    KeyIsByte(key);
    LowByteValue(ShardingKey(key));
    SameValue(ShardingKey(key), shard);
  }

  lemma Successor(b: bv8)
    requires b < 255
    ensures (b + 1) as nat == b as nat + 1
  {}

  /** An index below 256 as a byte. */
  function ByteOf(index: nat): bv8 {
    if index == 0 then 0 else ByteOf(index - 1) + 1
  }

  lemma {:induction false} ByteOfIndex(index: nat)
    requires index < SHARDING_SIZE
    ensures ByteOf(index) as nat == index
  {
    if index > 0 {
      ByteOfIndex(index - 1);
      Successor(ByteOf(index - 1));
    }
  }

  lemma ByteAsWord(b: bv8)
    ensures b as Word <= LAST_SHARD && LowByte(b as Word) == b
  {}

  function WordOf(index: nat): Word {
    ByteOf(index) as Word
  }

  lemma WordOfIndex(index: nat)
    requires index < SHARDING_SIZE
    ensures WordOf(index) as nat == index && WordOf(index) <= LAST_SHARD
  {
    hide LowByte, ByteOf;
    ByteOfIndex(index);
    ByteAsWord(ByteOf(index));
    LowByteValue(WordOf(index));
  }

  /** The addresses of one list. */
  ghost function AddressesOf(index: nat): set<Address>
    requires index < SHARDING_SIZE
  {
    set key | key in Shard(WordOf(index)) :: Address(key)
  }

  lemma AddressesOfMembers(index: nat, addr: Address)
    requires index < SHARDING_SIZE
    ensures addr in AddressesOf(index) <==> ShardIndex(addr) == index
  {
    hide ShardIndex, Shard, ShardingKey, WordOf;
    WordOfIndex(index);
    var shard := WordOf(index);
    IndexIsKey(addr.bits, shard);
    ShardMembers(shard, addr.bits);
    assert addr == Address(addr.bits);
  }

  /** Each of the 256 lists is the one for exactly 2^56 addresses. */
  lemma ListsAreBalanced(index: nat)
    requires index < SHARDING_SIZE
    ensures forall addr :: addr in AddressesOf(index) <==> ShardIndex(addr) == index
    ensures |AddressesOf(index)| == 0x0100_0000_0000_0000
  {
    hide ShardIndex, Shard, WordOf;
    forall addr ensures addr in AddressesOf(index) <==> ShardIndex(addr) == index {
      AddressesOfMembers(index, addr);
    }
    WordOfIndex(index);
    ShardSize(WordOf(index));
    ImageSize((key: Word) => Address(key), Shard(WordOf(index)));
    assert AddressesOf(index) == Image((key: Word) => Address(key), Shard(WordOf(index)));
  }

  /** There are 2^64 addresses in all. */
  lemma AllWords()
    ensures forall x: Word :: x in UpTo(LAST_WORD)
    ensures |UpTo(LAST_WORD)| == 0x1_0000_0000_0000_0000
  {
    forall x: Word ensures x in UpTo(LAST_WORD) { UpToComplete(LAST_WORD, x); }
    UpToSize(LAST_WORD);
    PowersOfTwo();
  }
}
