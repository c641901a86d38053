/** The dispatch key `state | (event_id << 15)` of include/switch_sm.hpp, on
    unbounded non-negative integers with the source's 32-bit signed range
    made explicit. */
module DispatchKey {

  /** The shift that moves the event id above the state id. */
  const StateBits: nat := 15

  /** 2^15: state ids must stay below it so the two halves do not overlap. */
  const StateLimit: int := 0x8000

  /** 2^16: event ids below it keep `event_id << 15` inside a signed int. */
  const EventLimit: int := 0x1_0000

  /** 2^31: one past the largest value of a 32-bit signed int. */
  const IntLimit: int := 0x8000_0000

  function Pow2(n: nat): (r: nat)
    ensures r >= 1
  {
    if n == 0 then 1 else 2 * Pow2(n - 1)
  }

  /** Bitwise OR of two non-negative integers, one bit at a time from the
      least significant end. */
  function BitOr(a: nat, b: nat): (r: nat)
    ensures a <= r && b <= r
    ensures r <= a + b
    decreases a + b
  {
    if a == 0 then b
    else if b == 0 then a
    else 2 * BitOr(a / 2, b / 2) + (if a % 2 == 1 || b % 2 == 1 then 1 else 0)
  }

  /** `x << n` on a non-negative value that does not overflow. */
  function ShiftLeft(x: nat, n: nat): nat
  {
    x * Pow2(n)
  }

  predicate ValidState(s: int)
  {
    0 <= s < StateLimit
  }

  predicate ValidEvent(e: int)
  {
    0 <= e < EventLimit
  }

  lemma Pow2StateBits()
    ensures Pow2(StateBits) == StateLimit
  {
    assert Pow2(15) == 0x8000;
  }

  /** OR with a value whose low `n` bits are clear is addition. */
  lemma {:induction false} OrDisjoint(a: nat, b: nat, n: nat)
    requires a < Pow2(n)
    ensures BitOr(a, b * Pow2(n)) == a + b * Pow2(n)
  {
    if n == 0 {
      assert a == 0;
    } else if a == 0 {
    } else if b == 0 {
      assert b * Pow2(n) == 0;
    } else {
      var hi := b * Pow2(n);
      assert hi == 2 * (b * Pow2(n - 1));
      assert hi / 2 == b * Pow2(n - 1);
      assert hi % 2 == 0;
      assert a / 2 < Pow2(n - 1);
      OrDisjoint(a / 2, b, n - 1);
      assert BitOr(a, hi) == 2 * BitOr(a / 2, hi / 2) + a % 2;
    }
  }

  /** The shift of the event id stays inside a signed int exactly when the
      event id is below `EventLimit`. */
  lemma ShiftFitsExactly(e: nat)
    ensures ShiftLeft(e, StateBits) < IntLimit <==> e < EventLimit
  {
    Pow2StateBits();
  }

  /** `state | (event_id << 15)`: the case label of a (state, event) pair. */
  function Key(s: int, e: int): (k: int)
    requires ValidState(s) && ValidEvent(e)
    ensures k == s + e * StateLimit
    ensures 0 <= k < IntLimit
  {
    Pow2StateBits();
    OrDisjoint(s, e, StateBits);
    BitOr(s, ShiftLeft(e, StateBits))
  }

  /** The mask that recovers the state id from a key. */
  function StateOf(k: int): int
  {
    k % StateLimit
  }

  /** The shift that recovers the event id from a key. */
  function EventOf(k: int): int
  {
    k / StateLimit
  }

  /** Euclidean division by `StateLimit` has exactly one quotient and remainder. */
  lemma DivModUnique(k: int, q: int, r: int)
    requires 0 <= r < StateLimit
    requires k == q * StateLimit + r
    ensures k / StateLimit == q
    ensures k % StateLimit == r
  {
    var q' := k / StateLimit;
    var r' := k % StateLimit;
    assert k == q' * 0x8000 + r';
    assert (q - q') * 0x8000 == r' - r;
  }

  /** Decoding a key gives back the pair it was packed from. */
  lemma KeyRoundTrip(s: int, e: int)
    requires ValidState(s) && ValidEvent(e)
    ensures StateOf(Key(s, e)) == s
    ensures EventOf(Key(s, e)) == e
  {
    DivModUnique(Key(s, e), e, s);
  }

  /** Every key in the signed range decodes to valid ids and packs back. */
  lemma KeyDecodeRoundTrip(k: int)
    requires 0 <= k < IntLimit
    ensures ValidState(StateOf(k)) && ValidEvent(EventOf(k))
    ensures Key(StateOf(k), EventOf(k)) == k
  {
  }

  /** A key equals the label of `(S::id, E::id)` exactly when both ids match. */
  lemma KeyInjective(s1: int, e1: int, s2: int, e2: int)
    requires ValidState(s1) && ValidEvent(e1)
    requires ValidState(s2) && ValidEvent(e2)
    ensures Key(s1, e1) == Key(s2, e2) <==> s1 == s2 && e1 == e2
  {
    if Key(s1, e1) == Key(s2, e2) {
      KeyRoundTrip(s1, e1);
      KeyRoundTrip(s2, e2);
    }
  }

  /** Only the first state with the first event packs to zero. */
  lemma KeyZero(s: int, e: int)
    requires ValidState(s) && ValidEvent(e)
    ensures Key(s, e) == 0 <==> s == 0 && e == 0
  {
  }
}
