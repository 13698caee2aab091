/** The bit operations of event_groups.c under names, and the few laws of them that are needed. */
module BitMasks {

  type Bits = bv32

  function And(a: Bits, b: Bits): Bits { a & b }
  function Or(a: Bits, b: Bits): Bits { a | b }
  function Minus(a: Bits, b: Bits): Bits { And(a, Not(b)) }
  function Not(a: Bits): Bits { !a }

  /** All the bits of b are set in a. */
  predicate Covers(a: Bits, b: Bits) { And(a, b) == b }

  /** Some bit of b is set in a. */
  predicate Meets(a: Bits, b: Bits) { And(a, b) != 0 }

  lemma CoversFewer(a: Bits, fewer: Bits, b: Bits)
    requires Covers(a, fewer) && Covers(fewer, b)
    ensures Covers(a, b)
  {
  }

  lemma MeetsFewer(a: Bits, fewer: Bits, b: Bits)
    requires Covers(a, fewer) && Meets(fewer, b)
    ensures Meets(a, b)
  {
  }

  lemma MinusIsFewer(a: Bits, mask: Bits)
    ensures Covers(a, Minus(a, mask))
  {
    hide And, Not;
    Absorbs(a, Not(mask));
  }

  lemma Absorbs(a: Bits, b: Bits)
    ensures And(a, And(a, b)) == And(a, b)
  {
  }

  lemma Distributes(a: Bits, b: Bits, m: Bits)
    ensures And(Or(a, b), m) == Or(And(a, m), And(b, m))
  {
  }

  lemma OrOfNothing(x: Bits, y: Bits)
    ensures Or(x, y) == 0 <==> x == 0 && y == 0
  {
  }

  lemma OrMeets(a: Bits, b: Bits, m: Bits)
    ensures Meets(Or(a, b), m) <==> Meets(a, m) || Meets(b, m)
  {
    hide And, Or;
    Distributes(a, b, m);
    OrOfNothing(And(a, m), And(b, m));
  }

  lemma NothingMeets(m: Bits)
    ensures !Meets(0, m) && !Meets(m, 0)
  {
  }

  /** Masks that meet the same masks are equal. */
  lemma SameMask(a: Bits, b: Bits)
    requires (Meets(a, Not(b)) <==> Meets(b, Not(b))) && (Meets(b, Not(a)) <==> Meets(a, Not(a)))
    ensures a == b
  {
    hide And, Not;
    NotItself(a);
    NotItself(b);
    Within(a, b);
    Within(b, a);
    Commutes(a, b);
  }

  lemma NotItself(a: Bits)
    ensures And(a, Not(a)) == 0
  {
  }

  lemma Within(a: Bits, b: Bits)
    requires And(a, Not(b)) == 0
    ensures And(a, b) == a
  {
  }

  lemma Commutes(a: Bits, b: Bits)
    ensures And(a, b) == And(b, a)
  {
  }

  lemma OrAssociates(a: Bits, b: Bits, c: Bits)
    ensures Or(Or(a, b), c) == Or(a, Or(b, c)) && Or(0, a) == a && Or(a, 0) == a
  {
  }

  lemma OrCovers(a: Bits, b: Bits)
    ensures Covers(Or(a, b), a) && Covers(Or(a, b), b)
  {
  }

  lemma CoversBoth(a: Bits, b: Bits, c: Bits)
    ensures Covers(a, Or(b, c)) <==> Covers(a, b) && Covers(a, c)
  {
    hide And, Or;
    OrCovers(b, c);
    if Covers(a, Or(b, c)) {
      CoversFewer(a, Or(b, c), b);
      CoversFewer(a, Or(b, c), c);
    } else {
      Distributes(b, c, a);
      Commutes(a, Or(b, c));
      Commutes(a, b);
      Commutes(a, c);
    }
  }

  lemma CoversNothing(a: Bits)
    ensures Covers(a, 0)
  {
  }

  /** Bits set by others do not touch a mask that theirs does not meet. */
  lemma OrDisjoint(a: Bits, b: Bits, m: Bits)
    requires !Meets(b, m)
    ensures Covers(Or(a, b), m) == Covers(a, m) && Meets(Or(a, b), m) == Meets(a, m)
  {
    hide And, Or;
    Distributes(a, b, m);
    OrNothing(And(a, m));
  }

  lemma OrNothing(x: Bits)
    ensures Or(x, 0) == x
  {
  }

  lemma MinusClears(a: Bits, mask: Bits, m: Bits)
    requires Covers(mask, m)
    ensures !Meets(Minus(a, mask), m)
  {
  }

  lemma NotMet(a: Bits, m: Bits)
    requires m != 0 && Covers(a, m)
    ensures Meets(a, m)
  {
  }

  /** Exactly one bit is set in m. */
  predicate IsBit(m: Bits) { m != 0 && m & (m - 1) == 0 }

  /** One bit is either set in a or not. */
  lemma OneBit(a: Bits, m: Bits)
    requires IsBit(m)
    ensures And(a, m) == 0 || And(a, m) == m
  {
  }

  lemma AndNot(a: Bits, b: Bits, m: Bits)
    ensures And(And(a, Not(b)), m) == And(And(a, m), Not(And(b, m)))
  {
  }

  lemma AndNotNothing(a: Bits)
    ensures And(a, Not(0)) == a
  {
  }

  /** One bit is left by Minus if it was there and not in the mask. */
  lemma MinusBit(a: Bits, mask: Bits, m: Bits)
    requires IsBit(m)
    ensures Meets(Minus(a, mask), m) <==> Meets(a, m) && !Meets(mask, m)
  {
    hide And, Not, IsBit;
    OneBit(mask, m);
    AndNot(a, mask, m);
    AndNotNothing(And(a, m));
    if And(mask, m) == m {
      OneBit(a, m);
      NotItself(m);
      NothingMeets(Not(m));
    }
  }

  /** The lowest bit of a mask. */
  function LowBit(x: Bits): Bits { x & (0 - x) }

  lemma LowBitIsBit(x: Bits)
    requires x != 0
    ensures IsBit(LowBit(x)) && And(x, LowBit(x)) == LowBit(x)
  {
  }

  lemma AndAssociates(a: Bits, b: Bits, m: Bits)
    ensures And(And(a, b), m) == And(a, And(b, m)) && And(And(a, b), m) == And(b, And(a, m))
  {
  }

  /** Two masks meet exactly when some one bit is in both. */
  lemma MeetsByBits(a: Bits, b: Bits)
    ensures Meets(a, b) <==> exists m :: IsBit(m) && Meets(a, m) && Meets(b, m)
  {
    hide And, IsBit, LowBit;
    if Meets(a, b) {
      var x := And(a, b);
      var m := LowBit(x);
      LowBitIsBit(x);
      AndAssociates(a, b, m);
      NotZero(m);
      if And(a, m) == 0 {
        NothingMeets(b);
        Commutes(b, 0);
      }
      if And(b, m) == 0 {
        NothingMeets(a);
      }
      assert IsBit(m) && Meets(a, m) && Meets(b, m);
    }
    if m :| IsBit(m) && Meets(a, m) && Meets(b, m) {
      OneBit(a, m);
      OneBit(b, m);
      AndAssociates(a, b, m);
      NotZero(m);
      NothingMeets(m);
    }
  }

  lemma NotZero(m: Bits)
    requires IsBit(m)
    ensures m != 0
  {
  }

  /** One mask covers another exactly when it has each of its bits. */
  lemma CoversByBits(a: Bits, b: Bits)
    ensures Covers(a, b) <==> forall m :: IsBit(m) && Meets(b, m) ==> Meets(a, m)
  {
    hide And, Not, IsBit;
    if Covers(a, b) {
      forall m | IsBit(m) && Meets(b, m) ensures Meets(a, m) {
        MeetsFewer(a, b, m);
      }
    } else {
      var x := Minus(b, a);
      if x == 0 {
        Within(b, a);
        Commutes(a, b);
      }
      MeetsByBits(x, x);
      AndSelf(x);
      var m :| IsBit(m) && Meets(x, m) && Meets(x, m);
      MinusBit(b, a, m);
    }
  }

  lemma AndSelf(x: Bits)
    ensures And(x, x) == x
  {
  }
}
