/** Token counts and how the clients add them up. */
module UsageSums {
  import opened Options

  // ---------- Go: 64-bit counters that wrap

  type Int64 = x: int | -0x8000_0000_0000_0000 <= x < 0x8000_0000_0000_0000

  function Wrap(x: int): Int64 {
    (x + 0x8000_0000_0000_0000) % 0x1_0000_0000_0000_0000 - 0x8000_0000_0000_0000
  }

  datatype Usage = Usage(input: Int64, output: Int64, cacheRead: Int64, cacheWrite: Int64)

  const ZERO := Usage(0, 0, 0, 0)

  /** A missing summand changes nothing. */
  function Add(u: Option<Usage>, other: Option<Usage>): Option<Usage> {
    if other.None? then u
    else if u.None? then other
    else Some(Usage(Wrap(u.value.input + other.value.input), Wrap(u.value.output + other.value.output),
                    Wrap(u.value.cacheRead + other.value.cacheRead), Wrap(u.value.cacheWrite + other.value.cacheWrite)))
  }

  function AddAll(u: Option<Usage>, others: seq<Option<Usage>>): Option<Usage>
    decreases |others|
  {
    if others == [] then u else AddAll(Add(u, others[0]), others[1..])
  }

  datatype Field = Input | Output | CacheRead | CacheWrite

  function Get(u: Usage, f: Field): Int64 {
    match f
    case Input => u.input
    case Output => u.output
    case CacheRead => u.cacheRead
    case CacheWrite => u.cacheWrite
  }

  /** The exact sum of one counter. */
  function Total(others: seq<Option<Usage>>, f: Field): int {
    if others == [] then 0
    else (if others[0].Some? then Get(others[0].value, f) as int else 0) + Total(others[1..], f)
  }

  lemma WrapAdds(x: int, y: int)
    ensures Wrap(Wrap(x) + y) == Wrap(x + y)
  {
    var m, h := 0x1_0000_0000_0000_0000, 0x8000_0000_0000_0000;
    var k := (x + h) / m;
    assert Wrap(x) == x - k * m;
    assert (x + y + h - k * m) % m == (x + y + h) % m;
  }

  lemma WrapCancels(a: Int64, b: int)
    ensures Wrap(a + b) == Wrap(b) <==> a == 0
  {
  }

  lemma AddedCounter(u: Usage, other: Usage, f: Field, rest: int)
    ensures Wrap(Get(Add(Some(u), Some(other)).value, f) + rest) == Wrap(Get(u, f) + Get(other, f) + rest)
  {
    WrapAdds(Get(u, f) + Get(other, f), rest);
  }

  lemma {:induction false} SumIsExact(u: Usage, others: seq<Option<Usage>>, f: Field)
    ensures AddAll(Some(u), others).Some?
    ensures Get(AddAll(Some(u), others).value, f) == Wrap(Get(u, f) + Total(others, f))
    decreases |others|
  {
    if others != [] {
      var next := Add(Some(u), others[0]).value;
      SumIsExact(next, others[1..], f);
      if others[0].Some? {
        AddedCounter(u, others[0].value, f, Total(others[1..], f));
      }
    }
  }

  lemma SameByFields(u: Usage, v: Usage)
    ensures u == v <==> forall f: Field :: Get(u, f) == Get(v, f)
  {
    if forall f: Field :: Get(u, f) == Get(v, f) {
      assert Get(u, Input) == Get(v, Input) && Get(u, Output) == Get(v, Output);
      assert Get(u, CacheRead) == Get(v, CacheRead) && Get(u, CacheWrite) == Get(v, CacheWrite);
    }
  }

  predicate NoneReported(others: seq<Option<Usage>>) {
    forall k :: 0 <= k < |others| ==> others[k].None?
  }

  lemma NoneReportedCons(first: Option<Usage>, others: seq<Option<Usage>>)
    ensures NoneReported([first] + others) <==> first.None? && NoneReported(others)
  {
    assert forall k :: 0 <= k < |others| ==> ([first] + others)[k + 1] == others[k];
    assert ([first] + others)[0] == first;
  }

  /** With nothing to start from there is a sum if there is any summand. */
  lemma {:induction false} SumFromNothing(others: seq<Option<Usage>>)
    ensures AddAll(None, others).None? <==> NoneReported(others)
    ensures AddAll(None, others).Some? ==> forall f: Field :: Get(AddAll(None, others).value, f) == Wrap(Total(others, f))
  {
    if others != [] {
      var rest := others[1..];
      assert others == [others[0]] + rest;
      NoneReportedCons(others[0], rest);
      if others[0].None? {
        SumFromNothing(rest);
        assert forall f: Field :: Total(others, f) == Total(rest, f);
      } else {
        forall f: Field
          ensures AddAll(None, others).Some? && Get(AddAll(None, others).value, f) == Wrap(Total(others, f))
        {
          SumIsExact(others[0].value, rest, f);
        }
        assert AddAll(None, others).Some? by { SumIsExact(others[0].value, rest, Input); }
      }
    }
  }

  lemma {:induction false} TotalAppend(others: seq<Option<Usage>>, last: Option<Usage>, f: Field)
    ensures Total(others + [last], f) == Total(others, f) + if last.Some? then Get(last.value, f) else 0
  {
    if others == [] {
      assert others + [last] == [last] && [last][1..] == [];
    } else {
      assert (others + [last])[1..] == others[1..] + [last];
      TotalAppend(others[1..], last, f);
    }
  }

  lemma WrapIsLast(x: int, last: Int64)
    ensures last == Wrap(x + last) <==> Wrap(x) == 0
  {
    WrapAdds(x, last);
  }

  /** Counting a usage once more changes the sum unless the usage is all zero. */
  lemma CountedTwiceIff(u: Usage, others: seq<Option<Usage>>)
    ensures AddAll(Some(u), [Some(u)] + others) == AddAll(Some(u), others) <==> u == ZERO
  {
    var once, twice := AddAll(Some(u), others), AddAll(Some(u), [Some(u)] + others);
    assert ([Some(u)] + others)[1..] == others;
    SumIsExact(u, others, Input);
    SumIsExact(u, [Some(u)] + others, Input);
    forall f: Field ensures Get(twice.value, f) == Get(once.value, f) <==> Get(u, f) == Get(ZERO, f) {
      SumIsExact(u, others, f);
      SumIsExact(u, [Some(u)] + others, f);
      WrapCancels(Get(u, f), Get(u, f) + Total(others, f));
    }
    SameByFields(twice.value, once.value);
    SameByFields(u, ZERO);
  }

  // ---------- Rust: counters that saturate

  const MAX: nat := 0xFFFF_FFFF_FFFF_FFFF

  type Count = x: nat | x <= MAX

  datatype RustUsage = RustUsage(input: Count, output: Count, cacheRead: Option<Count>, cacheWrite: Option<Count>)

  function Clamp(x: nat): Count { if x <= MAX then x else MAX }

  function Count0(c: Option<Count>): Count { if c.Some? then c.value else 0 }

  function AddOption(left: Option<Count>, right: Option<Count>): Option<Count> {
    if left.None? && right.None? then None
    else Some(Clamp(Count0(left) + Count0(right)))
  }

  function SaturatingAdd(a: RustUsage, b: RustUsage): RustUsage {
    RustUsage(Clamp(a.input + b.input), Clamp(a.output + b.output),
              AddOption(a.cacheRead, b.cacheRead), AddOption(a.cacheWrite, b.cacheWrite))
  }

  /** Any way to add usages up. */
  datatype Sum = One(usage: RustUsage) | Plus(left: Sum, right: Sum)

  function Evaluate(s: Sum): RustUsage {
    match s
    case One(u) => u
    case Plus(l, r) => SaturatingAdd(Evaluate(l), Evaluate(r))
  }

  function Summands(s: Sum): seq<RustUsage> {
    match s
    case One(u) => [u]
    case Plus(l, r) => Summands(l) + Summands(r)
  }

  /** One counter of a usage; `None` is a count that is not reported. */
  function Counter(u: RustUsage, f: Field): Option<Count> {
    match f
    case Input => Some(u.input)
    case Output => Some(u.output)
    case CacheRead => u.cacheRead
    case CacheWrite => u.cacheWrite
  }

  function Exact(us: seq<RustUsage>, f: Field): nat {
    if us == [] then 0 else Count0(Counter(us[0], f)) + Exact(us[1..], f)
  }

  predicate Reported(us: seq<RustUsage>, f: Field) {
    exists i :: 0 <= i < |us| && Counter(us[i], f).Some?
  }

  lemma {:induction false} ExactConcat(a: seq<RustUsage>, b: seq<RustUsage>, f: Field)
    ensures Exact(a + b, f) == Exact(a, f) + Exact(b, f)
  {
    if a == [] {
      assert a + b == b;
    } else {
      assert (a + b)[1..] == a[1..] + b;
      ExactConcat(a[1..], b, f);
    }
  }

  lemma ReportedConcat(a: seq<RustUsage>, b: seq<RustUsage>, f: Field)
    ensures Reported(a + b, f) <==> Reported(a, f) || Reported(b, f)
  {
    if Reported(a, f) {
      var i :| 0 <= i < |a| && Counter(a[i], f).Some?;
      assert (a + b)[i] == a[i];
    }
    if Reported(b, f) {
      var i :| 0 <= i < |b| && Counter(b[i], f).Some?;
      assert (a + b)[|a| + i] == b[i];
    }
  }

  /** The sum of some reported counts, as a counter. */
  function Cut(reported: bool, exact: nat): Option<Count> {
    if reported then Some(Clamp(exact)) else None
  }

  lemma CutAdds(p: bool, x: nat, q: bool, y: nat)
    requires (!p ==> x == 0) && (!q ==> y == 0)
    ensures AddOption(Cut(p, x), Cut(q, y)) == Cut(p || q, x + y)
  {
  }

  /** However the usages are grouped, a counter is the exact sum cut at 2^64 - 1, and a count
      is reported exactly if some summand reports it. */
  lemma {:induction false} SumSaturates(s: Sum, f: Field)
    ensures Counter(Evaluate(s), f) == Cut(Reported(Summands(s), f), Exact(Summands(s), f))
  {
    match s
    case One(u) =>
      OneSummand(u, f);
    case Plus(l, r) =>
      SumSaturates(l, f);
      SumSaturates(r, f);
      PlusSaturates(l, r, f);
  }

  lemma PlusSaturates(l: Sum, r: Sum, f: Field)
    requires Counter(Evaluate(l), f) == Cut(Reported(Summands(l), f), Exact(Summands(l), f))
    requires Counter(Evaluate(r), f) == Cut(Reported(Summands(r), f), Exact(Summands(r), f))
    ensures Counter(Evaluate(Plus(l, r)), f) == Cut(Reported(Summands(Plus(l, r)), f), Exact(Summands(Plus(l, r)), f))
  {
    AddedIsCut(Evaluate(l), Summands(l), Evaluate(r), Summands(r), f);
  }

  lemma AddedIsCut(u: RustUsage, a: seq<RustUsage>, v: RustUsage, b: seq<RustUsage>, f: Field)
    requires Counter(u, f) == Cut(Reported(a, f), Exact(a, f)) && Counter(v, f) == Cut(Reported(b, f), Exact(b, f))
    ensures Counter(SaturatingAdd(u, v), f) == Cut(Reported(a + b, f), Exact(a + b, f))
  {
    ExactConcat(a, b, f);
    ReportedConcat(a, b, f);
    NotReportedIsZero(a, f);
    NotReportedIsZero(b, f);
    CounterAdds(u, v, f);
    CutAdds(Reported(a, f), Exact(a, f), Reported(b, f), Exact(b, f));
  }

  lemma OneSummand(u: RustUsage, f: Field)
    ensures Counter(u, f) == Cut(Reported([u], f), Exact([u], f))
  {
    assert [u][0] == u && [u][1..] == [];
  }

  lemma CounterAdds(a: RustUsage, b: RustUsage, f: Field)
    ensures Counter(SaturatingAdd(a, b), f) == AddOption(Counter(a, f), Counter(b, f))
  {
  }

  lemma {:induction false} NotReportedIsZero(us: seq<RustUsage>, f: Field)
    ensures !Reported(us, f) ==> Exact(us, f) == 0
  {
    if us != [] && !Reported(us, f) {
      assert Counter(us[0], f).None?;
      forall i | 0 <= i < |us[1..]| ensures Counter(us[1..][i], f).None? {
        assert us[1..][i] == us[i + 1];
      }
      NotReportedIsZero(us[1..], f);
    }
  }

  lemma {:induction false} ExactPermutes(a: seq<RustUsage>, b: seq<RustUsage>, f: Field)
    requires multiset(a) == multiset(b)
    ensures Exact(a, f) == Exact(b, f)
    decreases |a|
  {
    if a == [] {
      assert |multiset(b)| == 0 && b == [];
    } else {
      var k := FindFirst(a, b);
      ExactPermutes(a[1..], b[..k] + b[k + 1..], f);
      ExactWithout(b, k, f);
    }
  }

  lemma FindFirst(a: seq<RustUsage>, b: seq<RustUsage>) returns (k: nat)
    requires multiset(a) == multiset(b) && a != []
    ensures k < |b| && b[k] == a[0] && multiset(a[1..]) == multiset(b[..k] + b[k + 1..])
  {
    assert a[0] in multiset(b);
    k :| k < |b| && b[k] == a[0];
    TakeOut(b, k);
    assert a == [a[0]] + a[1..];
  }

  lemma TakeOut(b: seq<RustUsage>, k: nat)
    requires k < |b|
    ensures multiset(b[..k] + b[k + 1..]) == multiset(b) - multiset{b[k]}
  {
    assert b == b[..k] + [b[k]] + b[k + 1..];
  }

  lemma ExactWithout(b: seq<RustUsage>, k: nat, f: Field)
    requires k < |b|
    ensures Exact(b, f) == Count0(Counter(b[k], f)) + Exact(b[..k] + b[k + 1..], f)
  {
    ExactConcat(b[..k], b[k + 1..], f);
    ExactConcat(b[..k], b[k..], f);
    assert b == b[..k] + b[k..] && b[k..][1..] == b[k + 1..];
  }

  /** Neither grouping nor order matters. */
  lemma SumsAgree(s: Sum, t: Sum)
    requires multiset(Summands(s)) == multiset(Summands(t))
    ensures Evaluate(s) == Evaluate(t)
  {
    forall f: Field ensures Counter(Evaluate(s), f) == Counter(Evaluate(t), f) {
      SumSaturates(s, f);
      SumSaturates(t, f);
      ExactPermutes(Summands(s), Summands(t), f);
      ReportedPermutes(Summands(s), Summands(t), f);
      ReportedPermutes(Summands(t), Summands(s), f);
    }
    SameCounters(Evaluate(s), Evaluate(t));
  }

  lemma SameCounters(u: RustUsage, v: RustUsage)
    requires forall f: Field :: Counter(u, f) == Counter(v, f)
    ensures u == v
  {
    assert Counter(u, Input) == Counter(v, Input) && Counter(u, Output) == Counter(v, Output);
    assert Counter(u, CacheRead) == Counter(v, CacheRead) && Counter(u, CacheWrite) == Counter(v, CacheWrite);
  }

  lemma ReportedPermutes(a: seq<RustUsage>, b: seq<RustUsage>, f: Field)
    requires multiset(a) == multiset(b)
    ensures Reported(a, f) ==> Reported(b, f)
  {
    if Reported(a, f) {
      var i :| 0 <= i < |a| && Counter(a[i], f).Some?;
      assert a[i] in multiset(b);
      var k :| 0 <= k < |b| && b[k] == a[i];
    }
  }
}
