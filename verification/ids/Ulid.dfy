/** ULIDs: 48 bits of milliseconds and 80 random bits in 26 base-32 characters. */
module Ulid {
  import opened Bytes
  import opened Numerals

  // ---------- the alphabet

  /** Crockford's digits: the decimal digits and the capitals without I, L, O and U. */
  function Crockford(v: nat): char
    requires v < 32
  {
    (if v < 10 then '0' as int + v
     else if v < 18 then 'A' as int + v - 10
     else if v < 20 then 'J' as int + v - 18
     else if v < 22 then 'M' as int + v - 20
     else if v < 27 then 'P' as int + v - 22
     else 'V' as int + v - 27) as char
  }

  function DigitOf(c: char): nat {
    if '0' <= c <= '9' then c as int - '0' as int
    else if 'A' <= c <= 'H' then 10 + c as int - 'A' as int
    else if 'J' <= c <= 'K' then 18 + c as int - 'J' as int
    else if 'M' <= c <= 'N' then 20 + c as int - 'M' as int
    else if 'P' <= c <= 'T' then 22 + c as int - 'P' as int
    else if 'V' <= c <= 'Z' then 27 + c as int - 'V' as int
    else 0
  }

  predicate InAlphabet(c: char) {
    DigitOf(c) < 32 && Crockford(DigitOf(c)) == c
  }

  lemma AlphabetIsCrockfords()
    ensures seq(32, i requires 0 <= i < 32 => Crockford(i)) == "0123456789ABCDEFGHJKMNPQRSTVWXYZ"
    ensures forall v: nat :: v < 32 ==> DigitOf(Crockford(v)) == v
  {
  }

  function Read(s: string): (digits: seq<nat>)
    ensures |digits| == |s| && Digits(32, digits)
  {
    seq(|s|, i requires 0 <= i < |s| => DigitOf(s[i]))
  }

  /** Characters of the alphabet that, read in base 32, give `n`. */
  predicate Encodes(s: string, n: nat) {
    (forall i :: 0 <= i < |s| ==> InAlphabet(s[i])) && Number(32, Read(s)) == n
  }

  /** The order of strings by their characters. */
  predicate Before(a: string, b: string) {
    if a == [] then b != []
    else b != [] && (a[0] < b[0] || (a[0] == b[0] && Before(a[1..], b[1..])))
  }

  lemma {:induction false} ReadKeepsOrder(a: string, b: string)
    requires forall i :: 0 <= i < |a| ==> InAlphabet(a[i])
    requires forall i :: 0 <= i < |b| ==> InAlphabet(b[i])
    ensures Before(a, b) <==> Precedes(Read(a), Read(b))
    ensures Read(a) == Read(b) ==> a == b
    decreases |a|
  {
    if a != [] && b != [] {
      assert Read(a)[1..] == Read(a[1..]) && Read(b)[1..] == Read(b[1..]);
      ReadKeepsOrder(a[1..], b[1..]);
      assert a == [a[0]] + a[1..] && b == [b[0]] + b[1..];
    } else {
      assert |Read(a)| == |a| && |Read(b)| == |b|;
    }
  }

  /** Encodings of one length: equal exactly if the numbers are, and in their order. */
  lemma EncodingKeepsOrder(a: string, b: string, m: nat, n: nat)
    requires |a| == |b| && Encodes(a, m) && Encodes(b, n)
    ensures a == b <==> m == n
    ensures Before(a, b) <==> m < n
  {
    ReadKeepsOrder(a, b);
    OrderPreserved(32, Read(a), Read(b));
  }

  lemma AppendChar(s: string, v: nat)
    requires v < 32
    ensures Read(s + [Crockford(v)]) == Read(s) + [v] && InAlphabet(Crockford(v))
    ensures Number(32, Read(s + [Crockford(v)])) == 32 * Number(32, Read(s)) + v
  {
    var r := Read(s);
    assert Read(s + [Crockford(v)]) == r + [v] && (r + [v])[..|r|] == r;
  }

  // ---------- bits

  function ShiftRight(x: nat, n: nat): nat {
    if n == 0 then x else ShiftRight(x, n - 1) / 2
  }

  function ShiftLeft(x: nat, n: nat): nat {
    if n == 0 then x else 2 * ShiftLeft(x, n - 1)
  }

  function BitAt(src: seq<Byte>, k: nat): (b: nat)
    requires k < 8 * |src|
    ensures b < 2
  {
    ShiftRight(src[k / 8], 7 - k % 8) % 2
  }

  /** The number the first `n` bits spell. */
  function Bits(src: seq<Byte>, n: nat): nat
    requires n <= 8 * |src|
  {
    if n == 0 then 0 else 2 * Bits(src, n - 1) + BitAt(src, n - 1)
  }

  /** A bit more of the number is a bit less to shift out. */
  lemma NextBit(src: seq<Byte>, j: nat, i: nat)
    requires j < |src| && i < 8
    ensures Bits(src, 8 * j + i + 1) == 2 * Bits(src, 8 * j + i) + ShiftRight(src[j], 7 - i) % 2
    ensures i > 0 ==> ShiftRight(src[j], 8 - i) == ShiftRight(src[j], 7 - i) / 2
  {
    assert (8 * j + i) / 8 == j && (8 * j + i) % 8 == i;
  }

  lemma {:induction false} SomeBits(src: seq<Byte>, j: nat, i: nat)
    requires j < |src| && i < 8
    ensures Bits(src, 8 * j + i + 1) == ShiftLeft(Bits(src, 8 * j), i + 1) + ShiftRight(src[j], 7 - i)
  {
    NextBit(src, j, i);
    if i > 0 {
      SomeBits(src, j, i - 1);
    } else {
      ShiftedOut(src[j]);
    }
  }

  lemma ShiftedOut(x: Byte)
    ensures ShiftRight(x, 7) < 2
  {
    assert ShiftRight(x, 1) < 128;
    assert ShiftRight(x, 2) < 64;
    assert ShiftRight(x, 3) < 32;
    assert ShiftRight(x, 4) < 16;
    assert ShiftRight(x, 5) < 8;
    assert ShiftRight(x, 6) < 4;
  }

  lemma EightBits(src: seq<Byte>, j: nat)
    requires j < |src|
    ensures Bits(src, 8 * j + 8) == 256 * Bits(src, 8 * j) + src[j]
  {
    SomeBits(src, j, 7);
    var n := Bits(src, 8 * j);
    FiveShifts(n);
    assert ShiftLeft(n, 6) == 64 * n && ShiftLeft(n, 7) == 128 * n;
  }

  lemma {:induction false} AllBits(src: seq<Byte>, j: nat)
    requires j <= |src|
    ensures Bits(src, 8 * j) == Number(256, src[..j])
  {
    if j > 0 {
      AllBits(src, j - 1);
      EightBits(src, j - 1);
      assert src[..j][..j - 1] == src[..j - 1];
    }
  }

  /** Writes the bits of `src`, five to a character, into `dst` from `from` on. */
  method EncodeBase32(dst: array<char>, from: nat, src: array<Byte>)
    requires from <= dst.Length && 5 * (dst.Length - from) == 8 * src.Length
    modifies dst
    ensures dst[..from] == old(dst[..from])
    ensures Encodes(dst[from..], Number(256, src[..]))
  {
    ghost var s, written, done := src[..], "", dst[..from];
    var bit := 0;
    for i := from to dst.Length
      invariant bit == 5 * (i - from) && dst[..i] == done
      invariant |done| == i && done[..from] == old(dst[..from]) && done[from..] == written
      invariant Encodes(written, Bits(s, bit))
    {
      assert src[..] == s;
      var v := FiveBits(src, bit);
      NextChar(s, written, bit, v);
      bit := bit + 5;
      dst[i] := Crockford(v);
      Extend(done, from, Crockford(v));
      done, written := done + [Crockford(v)], written + [Crockford(v)];
    }
    AllBits(s, |s|);
    assert s[..|s|] == s && dst[..] == done;
    assert dst[from..] == done[from..] && dst[..from] == done[..from];
  }

  lemma Extend(done: string, from: nat, c: char)
    requires from <= |done|
    ensures (done + [c])[..from] == done[..from] && (done + [c])[from..] == done[from..] + [c]
  {
  }

  /** The inner loop: the number of the five bits from `at` on. */
  method FiveBits(src: array<Byte>, at: nat) returns (v: nat)
    requires at + 5 <= 8 * src.Length
    ensures v < 32 && Bits(src[..], at + 5) == 32 * Bits(src[..], at) + v
  {
    v := 0;
    ghost var n := Bits(src[..], at);
    for k := 0 to 5
      invariant Pushed(src[..], n, k, v, at + k)
    {
      PushBit(src[..], n, k, v, at + k);
      v := 2 * v + BitAt(src[..], at + k);
    }
    FiveShifts(n);
  }

  /** `v` is the number of the last `k` bits before `bit`, and `n` that of the bits before those. */
  predicate Pushed(src: seq<Byte>, n: nat, k: nat, v: nat, bit: nat) {
    bit <= 8 * |src| && Bits(src, bit) == ShiftLeft(n, k) + v && v < ShiftLeft(1, k)
  }

  lemma PushBit(src: seq<Byte>, n: nat, k: nat, v: nat, bit: nat)
    requires bit < 8 * |src| && Pushed(src, n, k, v, bit)
    ensures Pushed(src, n, k + 1, 2 * v + BitAt(src, bit), bit + 1)
  {
  }

  lemma NextChar(src: seq<Byte>, written: string, at: nat, v: nat)
    requires at + 5 <= 8 * |src| && Encodes(written, Bits(src, at))
    requires v < 32 && Bits(src, at + 5) == 32 * Bits(src, at) + v
    ensures Encodes(written + [Crockford(v)], Bits(src, at + 5))
  {
    AppendChar(written, v);
  }

  lemma FiveShifts(n: nat)
    ensures ShiftLeft(1, 5) == 32 && ShiftLeft(n, 5) == 32 * n
  {
    assert ShiftLeft(n, 1) == 2 * n && ShiftLeft(n, 2) == 4 * n && ShiftLeft(n, 3) == 8 * n && ShiftLeft(n, 4) == 16 * n;
    assert ShiftLeft(1, 1) == 2 && ShiftLeft(1, 2) == 4 && ShiftLeft(1, 3) == 8 && ShiftLeft(1, 4) == 16;
  }

  // ---------- the generator

  const RANDOM_LIMIT := Pow(256, 10)
  const TIME_LIMIT := 0x1_0000_0000_0000

  /** One more, in place; false if the value was the largest and is now zero. */
  method IncrementRandom(b: array<Byte>) returns (ok: bool)
    modifies b
    ensures ok <==> Number(256, old(b[..])) + 1 < Pow(256, b.Length)
    ensures Number(256, b[..]) == if ok then Number(256, old(b[..])) + 1 else 0
  {
    ghost var before := b[..];
    var i := b.Length - 1;
    while i >= 0
      invariant -1 <= i < b.Length
      invariant b[..i + 1] == before[..i + 1]
      invariant forall j :: i < j < b.Length ==> b[j] == 0 && before[j] == 255
    {
      assert b[i] == b[..i + 1][i] == before[i];
      b[i] := (b[i] as int + 1) % 256;
      if b[i] != 0 {
        assert b[..i] == b[..i + 1][..i];
        Incremented(before, b[..], i);
        return true;
      }
      i := i - 1;
    }
    AllZero(b[..]);
    AllFull(before);
    return false;
  }

  lemma {:induction false} AllFull(s: seq<Byte>)
    requires forall j :: 0 <= j < |s| ==> s[j] == 255
    ensures Number(256, s) + 1 == Pow(256, |s|)
  {
    if s != [] {
      AllFull(s[..|s| - 1]);
    }
  }

  lemma {:induction false} AllZero(s: seq<Byte>)
    requires forall j :: 0 <= j < |s| ==> s[j] == 0
    ensures Number(256, s) == 0
  {
    if s != [] {
      AllZero(s[..|s| - 1]);
    }
  }

  /** A carry over full bytes up to byte `i`. */
  lemma Incremented(s: seq<Byte>, t: seq<Byte>, i: nat)
    requires i < |s| == |t| && t[i] as int == s[i] as int + 1 && t[..i] == s[..i]
    requires forall j :: i < j < |t| ==> t[j] == 0 && s[j] == 255
    ensures Number(256, t) == Number(256, s) + 1 < Pow(256, |s|)
  {
    var p := Pow(256, |s| - i - 1);
    FullTail(s, i);
    ZeroTail(t, i);
    CutAfter(s, i);
    CutAfter(t, i);
    OneUp(Number(256, s[..i + 1]), p);
    NumberBelow(256, t);
  }

  lemma FullTail(s: seq<Byte>, i: nat)
    requires i < |s| && forall j :: i < j < |s| ==> s[j] == 255
    ensures Number(256, s) + 1 == Number(256, s[..i + 1]) * Pow(256, |s| - i - 1) + Pow(256, |s| - i - 1)
  {
    AllFull(s[i + 1..]);
    SplitAfter(s, i);
  }

  lemma ZeroTail(t: seq<Byte>, i: nat)
    requires i < |t| && forall j :: i < j < |t| ==> t[j] == 0
    ensures Number(256, t) == Number(256, t[..i + 1]) * Pow(256, |t| - i - 1)
  {
    AllZero(t[i + 1..]);
    SplitAfter(t, i);
  }

  lemma OneUp(n: nat, p: nat)
    ensures (n + 1) * p == n * p + p
  {
  }

  lemma CutAfter(s: seq<Byte>, i: nat)
    requires i < |s|
    ensures Number(256, s[..i + 1]) == Number(256, s[..i]) * 256 + s[i]
  {
    assert s[..i + 1][..i] == s[..i];
  }

  lemma SplitAfter(s: seq<Byte>, i: nat)
    requires i < |s|
    ensures Number(256, s) == Number(256, s[..i + 1]) * Pow(256, |s| - i - 1) + Number(256, s[i + 1..])
  {
    assert s == s[..i + 1] + s[i + 1..];
    NumberConcat(256, s[..i + 1], s[i + 1..]);
  }

  /** The number a ULID encodes. */
  function Value(millis: int, random: nat): nat {
    (millis % TIME_LIMIT) * RANDOM_LIMIT + random
  }

  /** What one call makes of the millisecond and random value of the last. */
  function NextState(millis: int, random: nat, now: int, draw: nat): (int, nat) {
    if now == millis && random + 1 < RANDOM_LIMIT then (now, random + 1) else (now, draw)
  }

  class UlidState {
    var lastMillis: int
    var lastRandom: array<Byte>

    ghost predicate Ready()
      reads this
    {
      lastRandom.Length == 10
    }

    ghost function Random(): nat
      reads this, lastRandom
    {
      Number(256, lastRandom[..])
    }

    constructor ()
      ensures Ready() && fresh(lastRandom) && lastMillis == 0 && Random() == 0
    {
      lastMillis := 0;
      lastRandom := new Byte[10](_ => 0);
      new;
      AllZero(lastRandom[..]);
    }

    /** A new ULID at clock reading `now`; `draw` is the randomness taken if it is needed. */
    method NewUlid(now: int, draw: seq<Byte>) returns (ulid: string)
      requires Ready() && |draw| == 10
      modifies this, lastRandom
      ensures Ready() && lastRandom == old(lastRandom)
      ensures (lastMillis, Random()) == NextState(old(lastMillis), old(Random()), now, Number(256, draw))
      ensures |ulid| == 26 && Encodes(ulid, Value(lastMillis, Random()))
    {
      var ok := now == lastMillis;
      if ok {
        ok := IncrementRandom(lastRandom);
      }
      if !ok {
        lastMillis := now;
        Fill(draw);
      }
      var out := new char[26](_ => '0');
      var ts := lastMillis % TIME_LIMIT;
      EncodeTime(out, ts);
      ghost var time := out[..10];
      EncodeBase32(out, 10, lastRandom);
      ulid := out[..];
      assert ulid == time + out[10..];
      EncodesConcat(time, out[10..], ts, Random());
    }

    method Fill(draw: seq<Byte>)
      requires Ready() && |draw| == 10
      modifies lastRandom
      ensures lastRandom[..] == draw
    {
      for i := 0 to 10
        invariant lastRandom[..i] == draw[..i]
      {
        lastRandom[i] := draw[i];
      }
    }
  }

  /** The last ten characters of the time, the least significant last. */
  method EncodeTime(out: array<char>, time: nat)
    requires out.Length >= 10 && time < TIME_LIMIT
    modifies out
    ensures Encodes(out[..10], time) && out[10..] == old(out[10..])
  {
    var ts: nat := time;
    var i := 9;
    ghost var s, written := out[..], "";
    while i >= 0
      invariant -1 <= i <= 9 && |written| == 9 - i && out[..] == s
      invariant s[i + 1..10] == written && s[10..] == old(out[10..])
      invariant Spelling(ts, written, time)
    {
      NextDigit(ts, written, time);
      PutBefore(s, i, Crockford(ts % 32));
      out[i] := Crockford(ts % 32);
      s, written := s[i := Crockford(ts % 32)], [Crockford(ts % 32)] + written;
      ts := ts / 32;
      i := i - 1;
    }
    TimeIsSpelled(ts, written, time);
    assert out[..10] == s[..10] && out[10..] == s[10..];
  }

  lemma PutBefore(s: string, i: nat, c: char)
    requires i < 10 <= |s|
    ensures s[i := c][i..10] == [c] + s[i + 1..10] && s[i := c][10..] == s[10..]
  {
  }

  /** `written` is the end of the spelling of `total`, of which `rest` is still to be spelled. */
  predicate Spelling(rest: nat, written: string, total: nat) {
    (forall j :: 0 <= j < |written| ==> InAlphabet(written[j]))
    && total == rest * Pow(32, |written|) + Number(32, Read(written))
  }

  lemma NextDigit(rest: nat, written: string, total: nat)
    requires Spelling(rest, written, total)
    ensures Spelling(rest / 32, [Crockford(rest % 32)] + written, total)
  {
    PrependDigit(written, rest / 32, rest % 32, total);
  }

  lemma TimeIsSpelled(rest: nat, written: string, time: nat)
    requires time < TIME_LIMIT && |written| == 10 && Spelling(rest, written, time)
    ensures Encodes(written, time)
  {
    TooLarge(rest, time, Number(32, Read(written)));
  }

  lemma PrependDigit(written: string, q: nat, d: nat, total: nat)
    requires d < 32 && total == (q * 32 + d) * Pow(32, |written|) + Number(32, Read(written))
    ensures InAlphabet(Crockford(d))
    ensures var next := [Crockford(d)] + written;
            total == q * Pow(32, |next|) + Number(32, Read(next))
  {
    var r := Read([Crockford(d)] + written);
    assert r[0] == d && r[1..] == Read(written);
    FirstDigit(32, r);
    ShiftedDigit(q, d, Pow(32, |written|));
  }

  lemma ShiftedDigit(q: nat, d: nat, p: nat)
    ensures (q * 32 + d) * p == q * (32 * p) + d * p
  {
  }

  lemma TooLarge(ts: nat, time: nat, n: nat)
    requires time < TIME_LIMIT && time == ts * Pow(32, 10) + n
    ensures ts == 0
  {
    assert Pow(32, 10) == 1125899906842624;
  }

  lemma EncodesConcat(a: string, b: string, m: nat, n: nat)
    requires |b| == 16 && Encodes(a, m) && Encodes(b, n)
    ensures Encodes(a + b, m * RANDOM_LIMIT + n)
  {
    assert Read(a + b) == Read(a) + Read(b);
    NumberConcat(32, Read(a), Read(b));
    SameLimit();
  }

  lemma SameLimit()
    ensures Pow(32, 16) == RANDOM_LIMIT == 0x1_0000_0000_0000_0000_0000
  {
    PowAdds(32, 8, 8);
    PowAdds(256, 5, 5);
    assert Pow(32, 8) == 0x100_0000_0000 == Pow(256, 5);
  }

  // ---------- the other loop

  /** One shift loop over the whole 128-bit value. */
  method NewUlidShifting(now: int, draw: seq<Byte>) returns (ulid: string)
    requires |draw| == 10
    ensures |ulid| == 26 && Encodes(ulid, Value(now, Number(256, draw)))
  {
    var total: nat := now % TIME_LIMIT * RANDOM_LIMIT + Number(256, draw);
    var value: nat := total;
    ulid := "";
    var index := 25;
    while index >= 0
      invariant -1 <= index <= 25 && |ulid| == 25 - index
      invariant Spelling(value, ulid, total)
    {
      NextDigit(value, ulid, total);
      ulid := [Crockford(value % 32)] + ulid;
      value := value / 32;
      index := index - 1;
    }
    ValueBelow(now, draw);
    ValueIsSpelled(value, ulid, total);
  }

  lemma ValueIsSpelled(rest: nat, written: string, total: nat)
    requires total < TIME_LIMIT * RANDOM_LIMIT && |written| == 26 && Spelling(rest, written, total)
    ensures Encodes(written, total)
  {
    NothingLeft(rest, total, Number(32, Read(written)));
  }

  lemma ValueBelow(now: int, draw: seq<Byte>)
    requires |draw| == 10
    ensures Value(now, Number(256, draw)) < TIME_LIMIT * RANDOM_LIMIT
  {
    NumberBelow(256, draw);
    assert (now % TIME_LIMIT + 1) * RANDOM_LIMIT <= TIME_LIMIT * RANDOM_LIMIT;
  }

  lemma AtLeast(value: nat, p: nat)
    ensures value > 0 ==> value * p >= p
  {
  }

  lemma NothingLeft(value: nat, total: nat, n: nat)
    requires total < TIME_LIMIT * RANDOM_LIMIT && total == value * Pow(32, 26) + n
    ensures value == 0
  {
    SameLimit();
    PowAdds(32, 10, 16);
    assert Pow(32, 10) == 4 * TIME_LIMIT;
    AtLeast(value, Pow(32, 26));
  }

  // ---------- what the encoding is good for

  lemma FirstCharacter(ulid: string, millis: int, random: nat)
    requires |ulid| == 26 && random < RANDOM_LIMIT && Encodes(ulid, Value(millis, random))
    ensures ulid[0] <= '7'
  {
    var d := Read(ulid);
    FirstDigit(32, d);
    SameLimit();
    PowAdds(32, 10, 15);
    assert Pow(32, 10) == 4 * TIME_LIMIT && Pow(32, 16) == 32 * Pow(32, 15);
    assert (millis % TIME_LIMIT + 1) * RANDOM_LIMIT <= TIME_LIMIT * RANDOM_LIMIT;
    Leading(d[0], Pow(32, 25));
    assert Crockford(d[0]) == ulid[0];
  }

  lemma Leading(d: nat, p: nat)
    ensures d >= 8 ==> d * p >= 8 * p
  {
  }

  /** The ULID after a call sorts after the one before exactly if the clock moved on, or
      stood still with room left to count, or came round to the same 48 bits with a larger
      draw. */
  lemma NextSortsLaterIff(millis: int, random: nat, now: int, draw: nat, last: string, next: string)
    requires random < RANDOM_LIMIT && draw < RANDOM_LIMIT && |last| == |next| == 26
    requires Encodes(last, Value(millis, random))
    requires var (m, r) := NextState(millis, random, now, draw);
             Encodes(next, Value(m, r))
    ensures Before(last, next) <==>
              (now % TIME_LIMIT > millis % TIME_LIMIT
               || (now == millis && random + 1 < RANDOM_LIMIT)
               || (now != millis && now % TIME_LIMIT == millis % TIME_LIMIT && draw > random))
  {
    var (m, r) := NextState(millis, random, now, draw);
    EncodingKeepsOrder(last, next, Value(millis, random), Value(m, r));
    Gap(millis % TIME_LIMIT, now % TIME_LIMIT, RANDOM_LIMIT, random, r);
  }

  /** The states of a run of calls within one millisecond. */
  function Burst(millis: int, random: nat, draws: seq<nat>): (int, nat) {
    if draws == [] then (millis, random)
    else
      var (m, r) := Burst(millis, random, draws[..|draws| - 1]);
      NextState(m, r, millis, draws[|draws| - 1])
  }

  /** Within a millisecond every call counts one up, whatever could have been drawn, until
      the 80 bits are full; the call after that takes its draw. */
  lemma {:induction false} BurstCounts(millis: int, random: nat, draws: seq<nat>)
    requires random + |draws| <= RANDOM_LIMIT && random < RANDOM_LIMIT
    ensures Burst(millis, random, draws) ==
      (millis, if random + |draws| < RANDOM_LIMIT then random + |draws| else draws[|draws| - 1])
    decreases |draws|
  {
    if draws != [] {
      BurstCounts(millis, random, draws[..|draws| - 1]);
    }
  }
}
