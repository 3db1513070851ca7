/**
 * The two Mulberry32 generators: `makeRng` of backend/src/game/seeded-rng.ts keeps its state
 * unsigned, `mulberry32` of backend/src/shop/shop.service.ts keeps it signed.
 */
module Rng {
  import opened GameTypes

  const TWO32 := 4294967296

  // ---- 32-bit arithmetic on script numbers ----

  function ToUint32(x: int): (r: int)
    ensures 0 <= r < TWO32
  {
    x % TWO32
  }

  function ToInt32(x: int): int {
    var r := x % TWO32;
    if r >= TWO32 / 2 then r - TWO32 else r
  }

  /** What a 32-bit operator sees of its operand, whatever the sign. */
  function Bits(x: int): bv32 { ToUint32(x) as bv32 }

  predicate Same32(x: int, y: int) { ToUint32(x) == ToUint32(y) }

  lemma SignIrrelevant(x: int)
    ensures Same32(ToInt32(x), x) && Same32(ToUint32(x), x)
  {
  }

  lemma SumMod(x: int, y: int, c: int)
    requires Same32(x, y)
    ensures Same32(x + c, y + c)
  {
    assert (x - y) % TWO32 == 0;
    assert ((x + c) - (y + c)) % TWO32 == 0;
  }

  // ---- one draw ----

  const INCREMENT := 0x6D2B79F5

  function EngineState(state: int): int { ToUint32(state + INCREMENT) }

  /** Both sums are exact before the operator around them takes them modulo 2^32. */
  function EngineBits(b: bv32): bv32 {
    var t := (b ^ (b >> 15)) * (b | 1);
    var u := t ^ (t + (t ^ (t >> 7)) * (t | 61));
    u ^ (u >> 14)
  }

  function ShopBits(b: bv32): bv32 {
    var v := (b ^ (b >> 15)) * (1 | b);
    var w := (v + (v ^ (v >> 7)) * (61 | v)) ^ v;
    w ^ (w >> 14)
  }

  /** The draw of a state, as the integer that the final >>> 0 makes of it. */
  function EngineMix(state: int): int { EngineBits(Bits(state)) as int }

  function ShopMix(seed: int): int { ShopBits(Bits(seed)) as int }

  function ShopState(seed: int): int { ToInt32(ToInt32(seed) + INCREMENT) }

  lemma BitsAgree(b: bv32)
    ensures EngineBits(b) == ShopBits(b)
  {
    assert b | 1 == 1 | b;
    var t := (b ^ (b >> 15)) * (b | 1);
    assert t | 61 == 61 | t;
    XorCommutes(t, t + (t ^ (t >> 7)) * (t | 61));
  }

  lemma XorCommutes(x: bv32, y: bv32)
    ensures x ^ y == y ^ x
  {
  }

  /** The bits of a state decide the draw; its sign does not. */
  lemma MixesAgree(state: int, seed: int)
    requires Same32(state, seed)
    ensures EngineMix(state) == ShopMix(seed)
  {
    BitsAgree(Bits(seed));
  }

  lemma StatesAgree(state: int, seed: int)
    requires Same32(state, seed)
    ensures Same32(EngineState(state), ShopState(seed))
  {
    SignIrrelevant(seed);
    SumMod(state, ToInt32(seed), INCREMENT);
    SignIrrelevant(state + INCREMENT);
    SignIrrelevant(ToInt32(seed) + INCREMENT);
  }

  // ---- the streams ----

  /** The states after n draws. */
  function EngineAt(seed: int, n: nat): int {
    if n == 0 then ToUint32(seed) else EngineState(EngineAt(seed, n - 1))
  }

  function ShopAt(seed: int, n: nat): int {
    if n == 0 then seed else ShopState(ShopAt(seed, n - 1))
  }

  function AsReal(bits: int): real { bits as real / TWO32 as real }

  /** The n-th draw, counted from 1. */
  function EngineDraw(seed: int, n: nat): real { AsReal(EngineMix(EngineAt(seed, n))) }

  function ShopDraw(seed: int, n: nat): real { AsReal(ShopMix(ShopAt(seed, n))) }

  lemma {:induction false} StreamsInStep(seed: int, n: nat)
    ensures Same32(EngineAt(seed, n), ShopAt(seed, n))
    decreases n
  {
    if n == 0 {
      SignIrrelevant(seed);
    } else {
      StreamsInStep(seed, n - 1);
      StatesAgree(EngineAt(seed, n - 1), ShopAt(seed, n - 1));
    }
  }

  /** From every seed both generators emit the same numbers, all of them in [0, 1). */
  lemma SameStream(seed: int, n: nat)
    ensures EngineDraw(seed, n) == ShopDraw(seed, n)
    ensures 0.0 <= EngineDraw(seed, n) < 1.0
  {
    StreamsInStep(seed, n);
    MixesAgree(EngineAt(seed, n), ShopAt(seed, n));
    InUnit(EngineMix(EngineAt(seed, n)));
  }

  lemma InUnit(bits: int)
    requires 0 <= bits < TWO32
    ensures 0.0 <= AsReal(bits) < 1.0
  {
  }

  // ---- states and draws in figures ----

  lemma AddMod(x: int, c: int)
    ensures (x % 4294967296 + c) % 4294967296 == (x + c) % 4294967296
  {
  }

  /** Each draw moves the state on by the same odd constant. */
  lemma {:induction false} StateAfter(seed: int, n: nat)
    ensures EngineAt(seed, n) == (seed + n * 0x6D2B79F5) % 4294967296
    decreases n
  {
    if n > 0 {
      StateAfter(seed, n - 1);
      AddMod(seed + (n - 1) * 0x6D2B79F5, 0x6D2B79F5);
    }
  }

  /** The mix of the first states from 0 and from 42. */
  lemma KnownMixes()
    ensures EngineBits(0x6D2B79F5) == 1144304738 && EngineBits(0xDA56F3EA) == 1416247
    ensures EngineBits(1831565855) == 2581720956 && EngineBits(3663131668) == 1925393290
  {
  }

  lemma KnownState(state: int)
    requires state == 0x6D2B79F5
    ensures EngineMix(state) == 1144304738
  {
    assert Bits(0x6D2B79F5) == 0x6D2B79F5;
    KnownMixes();
  }

  lemma DrawIs(seed: int, n: nat, bits: int)
    requires EngineMix(EngineAt(seed, n)) == bits
    ensures EngineDraw(seed, n) == ShopDraw(seed, n) == bits as real / 4294967296.0
  {
    SameStream(seed, n);
  }

  /** The first number from a seed that is 0 modulo 2^32 is 0.26642920868..., in either generator. */
  lemma KnownDraw(seed: int)
    requires seed % 4294967296 == 0
    ensures EngineDraw(seed, 1) == ShopDraw(seed, 1) == 1144304738.0 / 4294967296.0
  {
    StateAfter(seed, 1);
    KnownState(EngineAt(seed, 1));
    DrawIs(seed, 1, 1144304738);
  }

  // ---- the closures ----

  class EngineRng {
    var state: int

    constructor (seed: int)
      ensures state == EngineAt(seed, 0)
    {
      state := ToUint32(seed);
    }

    method Draw(ghost seed: int, ghost n: nat) returns (r: real)
      requires state == EngineAt(seed, n)
      modifies this
      ensures state == EngineAt(seed, n + 1) && r == EngineDraw(seed, n + 1)
    {
      state := ToUint32(state + INCREMENT);
      r := AsReal(EngineBits(Bits(state)) as int);
    }
  }

  class ShopRng {
    var seed: int

    constructor (start: int)
      ensures seed == ShopAt(start, 0)
    {
      seed := start;
    }

    method Draw(ghost start: int, ghost n: nat) returns (r: real)
      requires seed == ShopAt(start, n)
      modifies this
      ensures seed == ShopAt(start, n + 1) && r == ShopDraw(start, n + 1)
    {
      seed := ToInt32(seed);
      seed := ToInt32(seed + INCREMENT);
      r := AsReal(ShopBits(Bits(seed)) as int);
    }
  }

  // ---- shop offers ----

  datatype PoolEntry = PoolEntry(unitId: UnitId, ceiling: int)

  const UNIT_POOL := [PoolEntry(Fighter, 40), PoolEntry(Healer, 80), PoolEntry(Ranger, 95), PoolEntry(Tank, 100)]

  /** find: the first pool entry whose ceiling is above the roll. */
  function FindInPool(pool: seq<PoolEntry>, roll: real): Option<UnitId> {
    if pool == [] then None
    else if roll < pool[0].ceiling as real then Some(pool[0].unitId)
    else FindInPool(pool[1..], roll)
  }

  /** The pool answers exactly the rolls below 100, with the four kinds at 40, 40, 15 and 5 percent. */
  lemma PoolShares(roll: real)
    requires 0.0 <= roll
    ensures FindInPool(UNIT_POOL, roll).Some? <==> roll < 100.0
    ensures FindInPool(UNIT_POOL, roll) == Some(Fighter) <==> roll < 40.0
    ensures FindInPool(UNIT_POOL, roll) == Some(Healer) <==> 40.0 <= roll < 80.0
    ensures FindInPool(UNIT_POOL, roll) == Some(Ranger) <==> 80.0 <= roll < 95.0
    ensures FindInPool(UNIT_POOL, roll) == Some(Tank) <==> 95.0 <= roll < 100.0
  {
    var p1, p2, p3 := UNIT_POOL[1..], UNIT_POOL[2..], UNIT_POOL[3..];
    assert p1[1..] == p2 && p2[1..] == p3 && p3[1..] == [];
    assert FindInPool(p3, roll) == if roll < 100.0 then Some(Tank) else None;
    assert FindInPool(p2, roll) == if roll < 95.0 then Some(Ranger) else FindInPool(p3, roll);
    assert FindInPool(p1, roll) == if roll < 80.0 then Some(Healer) else FindInPool(p2, roll);
  }

  function RollOf(seed: int, n: nat): real { ShopDraw(seed, n) * 100.0 }

  lemma EveryRollIsAnswered(seed: int, n: nat)
    ensures FindInPool(UNIT_POOL, RollOf(seed, n)).Some?
  {
    SameStream(seed, n);
    PoolShares(RollOf(seed, n));
  }

  /** The next offer; the lookup never comes back empty. */
  method NextOffer(random: ShopRng, ghost seed: int, ghost n: nat) returns (unitId: UnitId)
    requires random.seed == ShopAt(seed, n)
    modifies random
    ensures random.seed == ShopAt(seed, n + 1)
    ensures Some(unitId) == FindInPool(UNIT_POOL, RollOf(seed, n + 1))
  {
    var draw := random.Draw(seed, n);
    EveryRollIsAnswered(seed, n + 1);
    unitId := FindInPool(UNIT_POOL, draw * 100.0).value;
  }

  /** Five offers, by the first five draws from the seed. */
  method GenerateOffers(seed: int) returns (offers: seq<UnitId>)
    ensures |offers| == 5
    ensures forall i | 0 <= i < 5 :: Some(offers[i]) == FindInPool(UNIT_POOL, RollOf(seed, i + 1))
  {
    var random := new ShopRng(seed);
    offers := [];
    for i := 0 to 5
      invariant |offers| == i && random.seed == ShopAt(seed, i)
      invariant forall j | 0 <= j < i :: Some(offers[j]) == FindInPool(UNIT_POOL, RollOf(seed, j + 1))
    {
      var unitId := NextOffer(random, seed, i);
      offers := offers + [unitId];
    }
  }
}
