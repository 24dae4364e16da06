/** Sets of HTTP methods as bit masks in an unsigned integer. */
module MethodMask {
  datatype Method = Get | Post | Put | Delete | Patch | Head | Connect | Options | Trace | Unknown

  // The enumeration's value: the bit of the method.
  function Index(m: Method): nat {
    match m
    case Get => 0
    case Post => 1
    case Put => 2
    case Delete => 3
    case Patch => 4
    case Head => 5
    case Connect => 6
    case Options => 7
    case Trace => 8
    case Unknown => 9
  }

  // mask & 1u << i
  predicate TestBit(mask: nat, i: nat) {
    if i == 0 then mask % 2 == 1 else TestBit(mask / 2, i - 1)
  }

  // mask | 1u << i
  function SetBit(mask: nat, i: nat): nat {
    if i == 0 then mask / 2 * 2 + 1 else SetBit(mask / 2, i - 1) * 2 + mask % 2
  }

  predicate Has(mask: nat, m: Method) {
    TestBit(mask, Index(m))
  }

  function Add(mask: nat, m: Method): nat {
    SetBit(mask, Index(m))
  }

  lemma {:induction false} SetTest(mask: nat, i: nat, j: nat)
    ensures TestBit(SetBit(mask, i), j) <==> i == j || TestBit(mask, j)
  {
    if i > 0 && j > 0 {
      SetTest(mask / 2, i - 1, j - 1);
    }
  }

  lemma {:induction false} NoBits(i: nat)
    ensures !TestBit(0, i)
  {
    if i > 0 { NoBits(i - 1); }
  }

  // A method once added is in the mask, and no other method comes in with it.
  lemma AddHas(mask: nat, m: Method, n: Method)
    ensures Has(Add(mask, m), n) <==> n == m || Has(mask, n)
  {
    SetTest(mask, Index(m), Index(n));
  }
}
