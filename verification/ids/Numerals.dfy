/** Numbers written in a base, most significant digit first. */
module Numerals {
  function Pow(base: nat, e: nat): nat {
    if e == 0 then 1 else base * Pow(base, e - 1)
  }

  predicate Digits(base: nat, s: seq<nat>) {
    forall i :: 0 <= i < |s| ==> s[i] < base
  }

  function Number(base: nat, s: seq<nat>): nat {
    if s == [] then 0 else Number(base, s[..|s| - 1]) * base + s[|s| - 1]
  }

  lemma {:induction false} PowAdds(base: nat, a: nat, b: nat)
    ensures Pow(base, a + b) == Pow(base, a) * Pow(base, b)
  {
    if a > 0 {
      PowAdds(base, a - 1, b);
      assert Pow(base, a + b) == base * Pow(base, a - 1 + b);
      assert base * (Pow(base, a - 1) * Pow(base, b)) == (base * Pow(base, a - 1)) * Pow(base, b);
    }
  }

  lemma Append(n: nat, p: nat, base: nat, last: nat)
    requires n < p && last < base
    ensures n * base + last < base * p
  {
    assert (n + 1) * base <= p * base;
  }

  lemma Regroup(x: nat, p: nat, f: nat, base: nat, last: nat)
    ensures (x * p + f) * base + last == x * (base * p) + (f * base + last)
  {
    assert (x * p) * base == x * (p * base);
  }

  lemma {:induction false} NumberBelow(base: nat, s: seq<nat>)
    requires Digits(base, s)
    ensures Number(base, s) < Pow(base, |s|)
  {
    if s != [] {
      var front, p := s[..|s| - 1], Pow(base, |s| - 1);
      NumberBelow(base, front);
      Append(Number(base, front), p, base, s[|s| - 1]);
    }
  }

  lemma {:induction false} NumberConcat(base: nat, a: seq<nat>, b: seq<nat>)
    ensures Number(base, a + b) == Number(base, a) * Pow(base, |b|) + Number(base, b)
    decreases |b|
  {
    if b == [] {
      assert a + b == a;
    } else {
      var front, last := b[..|b| - 1], b[|b| - 1];
      assert (a + b)[..|a + b| - 1] == a + front;
      NumberConcat(base, a, front);
      Regroup(Number(base, a), Pow(base, |b| - 1), Number(base, front), base, last);
    }
  }

  /** The order of strings: the first difference decides. */
  predicate Precedes(a: seq<nat>, b: seq<nat>) {
    if a == [] then b != []
    else b != [] && (a[0] < b[0] || (a[0] == b[0] && Precedes(a[1..], b[1..])))
  }

  lemma {:induction false} FirstDigit(base: nat, s: seq<nat>)
    requires s != []
    ensures Number(base, s) == s[0] * Pow(base, |s| - 1) + Number(base, s[1..])
  {
    NumberConcat(base, s[..1], s[1..]);
    assert s[..1] + s[1..] == s && s[..1][..0] == [];
  }

  /** On numerals of one length the order of strings is the order of numbers. */
  lemma {:induction false} OrderPreserved(base: nat, a: seq<nat>, b: seq<nat>)
    requires |a| == |b| && Digits(base, a) && Digits(base, b)
    ensures Precedes(a, b) <==> Number(base, a) < Number(base, b)
    ensures a == b <==> Number(base, a) == Number(base, b)
    decreases |a|
  {
    if a != [] {
      var p := Pow(base, |a| - 1);
      FirstDigit(base, a);
      FirstDigit(base, b);
      OrderPreserved(base, a[1..], b[1..]);
      NumberBelow(base, a[1..]);
      NumberBelow(base, b[1..]);
      Gap(a[0], b[0], p, Number(base, a[1..]), Number(base, b[1..]));
      assert a == [a[0]] + a[1..] && b == [b[0]] + b[1..];
    }
  }

  lemma Gap(x: nat, y: nat, p: nat, r: nat, t: nat)
    requires r < p && t < p
    ensures x < y ==> x * p + r < y * p + t
    ensures y < x ==> y * p + t < x * p + r
  {
    if x < y {
      assert (x + 1) * p <= y * p;
    } else if y < x {
      assert (y + 1) * p <= x * p;
    }
  }
}
